/**
 * Go's `url.ParseRequestURI`, the test the admission webhook applies to a
 * feed's RSS source URL. The URL is read as an absolute path or an absolute
 * URL (never a relative reference): control characters are refused, a scheme
 * is split off and lower-cased, the query is cut at the first `?`, a
 * scheme-less text must start with `/`, a `//` after a scheme starts an
 * authority whose port, user information and host characters are checked,
 * and every `%` escape must be well formed.
 */
module RequestUri {
  import opened Wrappers

  /** The reasons `url.ParseRequestURI` gives for refusing a text. */
  datatype UrlError =
    | ControlCharacter
    | EmptyUrl
    | MissingScheme
    | NotRequestUri
    | MissingBracket
    | InvalidPort(port: string)
    | InvalidUserinfo
    | BadEscape(text: string)
    | InvalidHost(text: string)

  /** The user information (if any) and host of a URL, as written. */
  datatype Authority = Authority(userinfo: Option<string>, host: string)

  /**
   * A parsed request URI. `opaquePart` (Go's `Opaque`) is set for a scheme followed by text that
   * does not start with a slash (`mailto:x`); otherwise the URL is an optional
   * authority and a path. The host, path and query are kept as written.
   */
  datatype Url = Url(
    scheme: string,
    opaquePart: Option<string>,
    authority: Option<Authority>,
    path: string,
    rawQuery: string,
    forceQuery: bool)

  // ---------------------------------------------------------------------------
  // Character classes

  /** An ASCII control character, which `stringContainsCTLByte` refuses. */
  predicate IsCtl(c: char) { c as int < 0x20 || c as int == 0x7F }

  predicate NoCtl(s: string) { forall i :: 0 <= i < |s| ==> !IsCtl(s[i]) }

  predicate IsAsciiLetter(c: char) { 'a' <= c <= 'z' || 'A' <= c <= 'Z' }

  predicate IsAsciiDigit(c: char) { '0' <= c <= '9' }

  predicate IsAlphanumeric(c: char) { IsAsciiLetter(c) || IsAsciiDigit(c) }

  /** The characters a scheme may hold after its first letter. */
  predicate IsSchemeChar(c: char) { IsAlphanumeric(c) || c == '+' || c == '-' || c == '.' }

  predicate IsHexDigit(c: char) { IsAsciiDigit(c) || 'a' <= c <= 'f' || 'A' <= c <= 'F' }

  function HexValue(c: char): nat {
    if IsAsciiDigit(c) then c as int - '0' as int
    else if 'a' <= c <= 'f' then c as int - 'a' as int + 10
    else if 'A' <= c <= 'F' then c as int - 'A' as int + 10
    else 0
  }

  /** `shouldEscape(c, encodeHost)` on an ASCII character: what may not appear bare in a host. */
  predicate MustEscapeInHost(c: char) {
    !IsAlphanumeric(c) && c !in "!$&'()*+,;=:[]<>\"" && c !in "-_.~"
  }

  /** `validUserinfo`: the characters user information may hold. */
  predicate IsUserinfoChar(c: char) {
    IsAlphanumeric(c) || c in "-._:~!$&'()*+,;=%@"
  }

  predicate ValidUserinfo(s: string) { forall i :: 0 <= i < |s| ==> IsUserinfoChar(s[i]) }

  /** `validOptionalPort`: empty, or a colon followed by decimal digits only. */
  predicate ValidOptionalPort(p: string) {
    p == [] || (p[0] == ':' && forall i :: 1 <= i < |p| ==> IsAsciiDigit(p[i]))
  }

  function ToLowerChar(c: char): char {
    if 'A' <= c <= 'Z' then (c as int + 32) as char else c
  }

  /** `strings.ToLower` on the ASCII text of a scheme. */
  function Lower(s: string): (r: string)
    ensures |r| == |s|
  {
    seq(|s|, i requires 0 <= i < |s| => ToLowerChar(s[i]))
  }

  // ---------------------------------------------------------------------------
  // Searching

  /** `strings.IndexByte`: the first position of c in s. */
  function IndexOf(s: string, c: char): (r: Option<nat>)
    ensures r.None? ==> c !in s
    ensures r.Some? ==> r.value < |s| && s[r.value] == c && c !in s[..r.value]
  {
    if s == [] then None
    else if s[0] == c then Some(0)
    else match IndexOf(s[1..], c)
      case None => None
      case Some(i) => assert s[..i + 1] == [s[0]] + s[1..][..i]; Some(i + 1)
  }

  /** `strings.LastIndex` for one character: its last position in s. */
  function LastIndexOf(s: string, c: char): (r: Option<nat>)
    ensures r.Some? ==> r.value < |s| && s[r.value] == c
    ensures r.None? <==> c !in s
  {
    if s == [] then None
    else if s[|s| - 1] == c then Some(|s| - 1)
    else
      assert s == s[..|s| - 1] + [s[|s| - 1]];
      LastIndexOf(s[..|s| - 1], c)
  }

  // ---------------------------------------------------------------------------
  // Stages of the parse

  /** A scheme: a letter, then letters, digits, `+`, `-` or `.`. */
  predicate IsScheme(s: string) {
    |s| >= 1 && IsAsciiLetter(s[0]) && forall k :: 1 <= k < |s| ==> IsSchemeChar(s[k])
  }

  /** The scan of `getScheme` from position i: where the colon that ends the scheme sits, if anywhere. */
  function SchemeEnd(s: string, i: nat): (r: Result<Option<nat>, UrlError>)
    requires i <= |s|
    requires i > 0 ==> IsScheme(s[..i])
    ensures r.Success? && r.value.Some? ==> i <= r.value.value < |s| && s[r.value.value] == ':' && IsScheme(s[..r.value.value])
    ensures r.Failure? ==> r.error == MissingScheme && i == 0 && |s| > 0 && s[0] == ':'
    decreases |s| - i
  {
    if i == |s| then Success(None)
    else
      var c := s[i];
      if IsAsciiLetter(c) then
        assert s[..i + 1] == s[..i] + [c];
        SchemeEnd(s, i + 1)
      else if IsAsciiDigit(c) || c == '+' || c == '-' || c == '.' then
        if i == 0 then Success(None)
        else
          assert s[..i + 1] == s[..i] + [c];
          SchemeEnd(s, i + 1)
      else if c == ':' then
        if i == 0 then Failure(MissingScheme) else Success(Some(i))
      else Success(None)
  }

  /** `getScheme`: the scheme as written and the rest after its colon, or no scheme and the whole text. */
  function GetScheme(s: string): (r: Result<(string, string), UrlError>)
    ensures r.Success? ==> (r.value.0 == [] && r.value.1 == s) || (IsScheme(r.value.0) && s == r.value.0 + ":" + r.value.1)
  {
    match SchemeEnd(s, 0)
    case Failure(e) => Failure(e)
    case Success(None) => Success(([], s))
    case Success(Some(i)) =>
      assert s == s[..i] + ":" + s[i + 1..];
      Success((s[..i], s[i + 1..]))
  }

  /** The part of a URL before its query, the raw query, and whether a lone trailing `?` was present. */
  datatype QuerySplit = QuerySplit(rest: string, query: string, force: bool)

  /** Text of the query part, as it was written after the rest. */
  function QueryText(query: string, force: bool): string {
    if force || query != [] then "?" + query else []
  }

  /**
   * A `?` that ends the text and is its only one sets ForceQuery (Go tests
   * this as a `?` suffix with a count of one); otherwise the text is cut at
   * its first `?`.
   */
  function CutQuery(s: string): (r: QuerySplit)
    ensures s == r.rest + QueryText(r.query, r.force)
    ensures '?' !in r.rest
  {
    if |s| > 0 && s[|s| - 1] == '?' && '?' !in s[..|s| - 1] then
      assert s == s[..|s| - 1] + "?";
      QuerySplit(s[..|s| - 1], [], true)
    else match IndexOf(s, '?')
      case None => QuerySplit(s, [], false)
      case Some(i) =>
        assert s == s[..i] + "?" + s[i + 1..];
        assert i + 1 < |s|;
        QuerySplit(s[..i], s[i + 1..], false)
  }

  /** `unescape`'s refusal of s, if any: a malformed `%` escape or, in a host, a character that must be escaped. */
  function EscapeError(s: string, inHost: bool): Option<UrlError>
    decreases |s|
  {
    if s == [] then None
    else if s[0] == '%' then
      if |s| < 3 || !IsHexDigit(s[1]) || !IsHexDigit(s[2]) then Some(BadEscape(if |s| > 3 then s[..3] else s))
      else if inHost && HexValue(s[1]) < 8 && s[..3] != "%25" then Some(BadEscape(s[..3]))
      else EscapeError(s[3..], inHost)
    else if inHost && s[0] as int < 0x80 && MustEscapeInHost(s[0]) then Some(InvalidHost([s[0]]))
    else EscapeError(s[1..], inHost)
  }

  /** The escapes of the text are checked as `unescape` checks them; the text is kept as written. */
  function Unescaped(s: string, inHost: bool): (r: Result<string, UrlError>)
    ensures r.Success? ==> r.value == s
  {
    match EscapeError(s, inHost)
    case None => Success(s)
    case Some(e) => Failure(e)
  }

  /** `parseHost`: a bracketed literal needs its `]`, a port must be digits, and the host characters must be allowed. */
  function ParseHost(h: string): (r: Result<string, UrlError>)
    ensures r.Success? ==> r.value == h
  {
    if |h| > 0 && h[0] == '[' then
      match LastIndexOf(h, ']')
      case None => Failure(MissingBracket)
      case Some(i) => if !ValidOptionalPort(h[i + 1..]) then Failure(InvalidPort(h[i + 1..])) else Unescaped(h, true)
    else
      match LastIndexOf(h, ':')
      case Some(i) => if !ValidOptionalPort(h[i..]) then Failure(InvalidPort(h[i..])) else Unescaped(h, true)
      case None => Unescaped(h, true)
  }

  /** The text of an authority, as written. */
  function AuthorityText(a: Authority): string {
    match a.userinfo
    case Some(u) => u + "@" + a.host
    case None => a.host
  }

  /** `parseAuthority`: the host after the last `@`, then the user information before it. */
  function ParseAuthority(s: string): (r: Result<Authority, UrlError>)
    ensures r.Success? ==> AuthorityText(r.value) == s
  {
    match LastIndexOf(s, '@')
    case None =>
      (match ParseHost(s)
       case Failure(e) => Failure(e)
       case Success(h) => Success(Authority(None, h)))
    case Some(i) =>
      match ParseHost(s[i + 1..])
      case Failure(e) => Failure(e)
      case Success(h) =>
        var u := s[..i];
        if !ValidUserinfo(u) then Failure(InvalidUserinfo)
        else match EscapeError(u, false)
          case Some(e) => Failure(e)
          case None =>
            assert s == u + "@" + h;
            Success(Authority(Some(u), h))
  }

  /** An authority and the path after it: everything up to the first `/` is the authority. */
  datatype AuthoritySplit = AuthoritySplit(authority: string, path: string)

  function SplitAuthority(s: string): (r: AuthoritySplit)
    ensures s == r.authority + r.path
    ensures r.path == [] || r.path[0] == '/'
  {
    match IndexOf(s, '/')
    case None => AuthoritySplit(s, [])
    case Some(i) =>
      assert s == s[..i] + s[i..];
      AuthoritySplit(s[..i], s[i..])
  }

  /** `strings.HasPrefix(s, "/")`. */
  predicate StartsWithSlash(s: string) { |s| >= 1 && s[0] == '/' }

  /** `strings.HasPrefix(s, "//")`. */
  predicate StartsWithTwoSlashes(s: string) { |s| >= 2 && s[0] == '/' && s[1] == '/' }

  /** The scheme as written before the rest: the scheme and its colon, or nothing. */
  function SchemeText(scheme: string): string {
    if scheme != [] then scheme + ":" else []
  }

  /** The hierarchical part of a URL as written: `//` and the authority if there is one, then the path. */
  function HierarchyText(u: Url): string {
    match u.authority
    case Some(a) => "//" + AuthorityText(a) + u.path
    case None => u.path
  }

  /** The text a URL was parsed from, with its scheme in lower case. */
  function Text(u: Url): string {
    SchemeText(u.scheme) + (match u.opaquePart case Some(o) => o case None => HierarchyText(u)) +
    QueryText(u.rawQuery, u.forceQuery)
  }

  /** The authority and the path of a network path, each checked as `parse` checks it. */
  function ParseAuthorityAndPath(split: AuthoritySplit): (r: Result<(Authority, string), UrlError>)
    ensures r.Success? ==> AuthorityText(r.value.0) == split.authority && r.value.1 == split.path
  {
    match ParseAuthority(split.authority)
    case Failure(e) => Failure(e)
    case Success(a) =>
      match Unescaped(split.path, false)
      case Failure(e) => Failure(e)
      case Success(p) => Success((a, p))
  }

  /** A text starting with `//` is the two slashes, the authority and the path. */
  lemma NetworkPathSplits(rest: string)
    requires StartsWithTwoSlashes(rest)
    ensures var split := SplitAuthority(rest[2..]); rest == "//" + split.authority + split.path
  {
    assert rest == rest[..2] + rest[2..] && rest[..2] == "//";
  }

  /** After a scheme and `//`: the authority up to the first `/`, then a path whose escapes are checked. */
  function ParseNetworkPath(scheme: string, q: QuerySplit): (r: Result<Url, UrlError>)
    requires StartsWithTwoSlashes(q.rest)
    ensures r.Success? ==> r.value.scheme == scheme && r.value.opaquePart.None? && HierarchyText(r.value) == q.rest
    ensures r.Success? ==> r.value.rawQuery == q.query && r.value.forceQuery == q.force
  {
    var split := SplitAuthority(q.rest[2..]);
    NetworkPathSplits(q.rest);
    match ParseAuthorityAndPath(split)
    case Failure(e) => Failure(e)
    case Success((a, p)) => Success(Url(scheme, None, Some(a), p, q.query, q.force))
  }

  /** The hierarchical part: an authority (only after a scheme and `//`) and a path whose escapes are checked. */
  function ParseHierarchy(scheme: string, q: QuerySplit): (r: Result<Url, UrlError>)
    ensures r.Success? ==> r.value.scheme == scheme && r.value.opaquePart.None? && HierarchyText(r.value) == q.rest
    ensures r.Success? ==> r.value.rawQuery == q.query && r.value.forceQuery == q.force
  {
    if scheme != [] && StartsWithTwoSlashes(q.rest) then ParseNetworkPath(scheme, q)
    else
      match Unescaped(q.rest, false)
      case Failure(e) => Failure(e)
      case Success(p) => Success(Url(scheme, None, None, p, q.query, q.force))
  }

  /** A URL's text is its scheme, the body before the query, and the query. */
  lemma TextRejoins(u: Url, body: string, rest: string)
    requires (match u.opaquePart case Some(o) => o case None => HierarchyText(u)) == body
    requires rest == body + QueryText(u.rawQuery, u.forceQuery)
    ensures Text(u) == SchemeText(u.scheme) + rest
  {
    assert SchemeText(u.scheme) + body + QueryText(u.rawQuery, u.forceQuery) == SchemeText(u.scheme) + rest;
  }

  /** Everything after the scheme: an opaque part, or a hierarchical part that must then start with a slash. */
  function ParseRest(scheme: string, rest: string): (r: Result<Url, UrlError>)
    ensures r.Success? ==> r.value.scheme == scheme && Text(r.value) == SchemeText(scheme) + rest
    ensures r.Success? && scheme == [] ==> rest != [] && rest[0] == '/'
    ensures r.Failure? && scheme == [] && (rest == [] || rest[0] != '/') ==> r.error == NotRequestUri
  {
    var q := CutQuery(rest);
    if !StartsWithSlash(q.rest) then
      if scheme != [] then
        var u := Url(scheme, Some(q.rest), None, [], q.query, q.force);
        TextRejoins(u, q.rest, rest);
        Success(u)
      else Failure(NotRequestUri)
    else
      assert rest[0] == q.rest[0];
      var r := ParseHierarchy(scheme, q);
      if r.Success? then
        TextRejoins(r.value, q.rest, rest);
        r
      else r
  }

  /** `url.ParseRequestURI`. */
  function ParseRequestUri(s: string): (r: Result<Url, UrlError>)
    ensures r.Success? ==> s != [] && NoCtl(s)
  {
    if !NoCtl(s) then Failure(ControlCharacter)
    else if s == [] then Failure(EmptyUrl)
    else if s == "*" then Success(Url([], None, None, "*", [], false))
    else
      match GetScheme(s)
      case Failure(e) => Failure(e)
      case Success(parts) => ParseRest(Lower(parts.0), parts.1)
  }

  // ---------------------------------------------------------------------------
  // Properties

  /**
   * Nothing is lost: a parsed URL writes back as the text it came from, with
   * only the scheme's letters brought to lower case.
   */
  lemma ParseRoundTrip(s: string, u: Url)
    requires ParseRequestUri(s) == Success(u)
    ensures |u.scheme| < |s|
    ensures Text(u) == Lower(s[..|u.scheme|]) + s[|u.scheme|..]
  {
    assert s[..0] == [] && s[0..] == s;
    assert Lower([]) == [];
    if s != "*" {
      var parts := GetScheme(s).value;
      if parts.0 != [] {
        SchemedRoundTrip(s, parts.0, parts.1, u);
      }
    }
  }

  lemma SchemedRoundTrip(s: string, scheme: string, rest: string, u: Url)
    requires scheme != [] && s == scheme + ":" + rest
    requires u.scheme == Lower(scheme) && Text(u) == SchemeText(u.scheme) + rest
    ensures |u.scheme| == |scheme| && Text(u) == Lower(s[..|scheme|]) + s[|scheme|..]
  {
    var k := |scheme|;
    var lower := Lower(scheme);
    assert |lower| == k && lower != [];
    assert Text(u) == lower + ":" + rest;
    assert s[..k] == scheme && s[k..] == ":" + rest;
  }

  /** Without a scheme, only `*` and texts that start with a slash are accepted. */
  lemma SchemelessNeedsSlash(s: string, u: Url)
    requires ParseRequestUri(s) == Success(u) && u.scheme == []
    ensures s == "*" || s[0] == '/'
  {
    if s != "*" {
      var parts := GetScheme(s).value;
      assert |Lower(parts.0)| == |parts.0|;
    }
  }

  /** A text without a colon, slash or star at its head is never a request URI. */
  lemma RelativeRejected(s: string)
    requires s != [] && NoCtl(s) && ':' !in s && s[0] != '/' && s[0] != '*'
    ensures ParseRequestUri(s) == Failure(NotRequestUri)
  {
    assert Lower([]) == [];
    assert GetScheme(s) == Success(([], s)) by {
      assert s[0] != ':';
    }
  }

  /** The characters of a plain host name: letters, digits and the unreserved marks. */
  predicate IsPlainHostChar(c: char) { IsAlphanumeric(c) || c in "-._~" }

  predicate PlainHost(h: string) { h != [] && forall i :: 0 <= i < |h| ==> IsPlainHostChar(h[i]) }

  /** Text without `%` has no malformed escape, and in a host plain characters need no escape. */
  lemma {:induction false} NoEscapeError(s: string, inHost: bool)
    requires '%' !in s
    requires inHost ==> forall i :: 0 <= i < |s| ==> IsPlainHostChar(s[i])
    ensures EscapeError(s, inHost) == None
  {
    if s != [] {
      assert s == [s[0]] + s[1..];
      assert inHost ==> IsPlainHostChar(s[0]);
      NoEscapeError(s[1..], inHost);
    }
  }

  /** `getScheme` finds a well-formed scheme that ends at the first colon. */
  lemma {:induction false} SchemeEndFinds(s: string, i: nat, j: nat)
    requires 0 < j < |s| && s[j] == ':' && IsScheme(s[..j]) && i <= j
    requires i > 0 ==> IsScheme(s[..i])
    ensures SchemeEnd(s, i) == Success(Some(j))
    decreases j - i
  {
    if i < j {
      assert s[i] == s[..j][i];
      if i > 0 {
        assert s[..i + 1] == s[..i] + [s[i]];
      } else {
        assert s[..1] == [s[0]];
      }
      SchemeEndFinds(s, i + 1, j);
    }
  }

  lemma GetSchemeFinds(scheme: string, rest: string)
    requires IsScheme(scheme)
    ensures GetScheme(scheme + ":" + rest) == Success((scheme, rest))
  {
    var s := scheme + ":" + rest;
    assert s[..|scheme|] == scheme && s[|scheme|] == ':';
    SchemeEndFinds(s, 0, |scheme|);
    assert s[|scheme| + 1..] == rest;
  }

  lemma CutQueryWithoutQuestionMark(s: string)
    requires '?' !in s
    ensures CutQuery(s) == QuerySplit(s, [], false)
  {
    if |s| > 0 {
      assert s[|s| - 1] in s;
    }
  }

  lemma SplitPlainHost(host: string, path: string)
    requires PlainHost(host) && (path == [] || path[0] == '/')
    ensures SplitAuthority(host + path) == AuthoritySplit(host, path)
  {
    var s := host + path;
    PlainHostHasNo(host, '/');
    if path == [] {
      assert s == host;
    } else {
      assert s[|host|] == '/';
      var r := IndexOf(s, '/');
      assert r.Some?;
      var i := r.value;
      assert s[..|host|] == host && s[|host|..] == path;
    }
  }

  lemma PlainHostAuthority(host: string)
    requires PlainHost(host)
    ensures ParseAuthority(host) == Success(Authority(None, host))
  {
    PlainHostHasNo(host, '@');
    PlainHostHasNo(host, ':');
    PlainHostHasNo(host, '%');
    assert host[0] != '[' by { assert IsPlainHostChar(host[0]); }
    NoEscapeError(host, true);
  }

  lemma PlainHostHasNo(host: string, c: char)
    requires PlainHost(host) && !IsPlainHostChar(c)
    ensures c !in host
  {
    forall i | 0 <= i < |host| ensures host[i] != c {
      assert IsPlainHostChar(host[i]);
    }
  }

  lemma PlainUrlNoCtl(scheme: string, host: string, path: string)
    requires IsScheme(scheme) && PlainHost(host) && NoCtl(path)
    ensures NoCtl(scheme + "://" + host + path)
  {
    var s := scheme + "://" + host + path;
    forall i | 0 <= i < |s| ensures !IsCtl(s[i]) {
      if i < |scheme| {
        assert s[i] == scheme[i];
        assert i == 0 || IsSchemeChar(scheme[i]);
      } else if |scheme| + 3 <= i < |scheme| + 3 + |host| {
        assert s[i] == host[i - |scheme| - 3];
        assert IsPlainHostChar(host[i - |scheme| - 3]);
      } else if i >= |scheme| + 3 + |host| {
        assert s[i] == path[i - |scheme| - 3 - |host|];
      }
    }
  }

  /**
   * An absolute URL made of a scheme, `//`, a plain host and a path without
   * `?`, `%` or control characters is accepted, its scheme in lower case and
   * its host and path read as written.
   */
  lemma AcceptsPlainUrl(scheme: string, host: string, path: string)
    requires IsScheme(scheme) && PlainHost(host)
    requires path == [] || path[0] == '/'
    requires NoCtl(path) && '?' !in path && '%' !in path
    ensures ParseRequestUri(scheme + "://" + host + path) ==
      Success(Url(Lower(scheme), None, Some(Authority(None, host)), path, [], false))
  {
    var rest := "//" + host + path;
    var s := scheme + ":" + rest;
    assert s == scheme + "://" + host + path;
    PlainUrlNoCtl(scheme, host, path);
    assert s != "*" by { assert IsAsciiLetter(s[0]); }
    GetSchemeFinds(scheme, rest);
    PlainAuthorityAccepted(Lower(scheme), host, path);
  }

  lemma PlainAuthorityAccepted(scheme: string, host: string, path: string)
    requires scheme != [] && PlainHost(host)
    requires path == [] || path[0] == '/'
    requires '?' !in path && '%' !in path
    ensures ParseRest(scheme, "//" + host + path) == Success(Url(scheme, None, Some(Authority(None, host)), path, [], false))
  {
    var rest := "//" + host + path;
    PlainHostHasNo(host, '?');
    assert '?' !in rest;
    CutQueryWithoutQuestionMark(rest);
    assert rest[2..] == host + path;
    SplitPlainHost(host, path);
    PlainHostAuthority(host);
    NoEscapeError(path, false);
  }

  /** An absolute https URL with a plain host is accepted, the host read as written. */
  lemma AcceptsHttpsUrl()
    ensures ParseRequestUri("https://google.fr") == Success(Url("https", None, Some(Authority(None, "google.fr")), [], [], false))
  {
    HttpsGoogleParts();
    AcceptsPlainUrl("https", "google.fr", []);
    HttpsGoogleText();
  }

  lemma HttpsGoogleParts()
    ensures IsScheme("https") && PlainHost("google.fr") && Lower("https") == "https"
  {
    var l := Lower("https");
    forall i | 0 <= i < 5 ensures l[i] == "https"[i] {
    }
    var h := "google.fr";
    forall i | 0 <= i < |h| ensures IsPlainHostChar(h[i]) {
    }
  }

  lemma HttpsGoogleText()
    ensures "https" + "://" + "google.fr" + [] == "https://google.fr"
  {
    var t := "https://google.fr";
    var u := "https" + "://" + "google.fr" + [];
    assert |u| == |t|;
    forall i | 0 <= i < |t| ensures u[i] == t[i] {
    }
  }

  /** Two words with a space between are neither an absolute URL nor an absolute path. */
  lemma RejectsFooBar()
    ensures ParseRequestUri("foo bar") == Failure(NotRequestUri)
  {
    RelativeRejected("foo bar");
  }

  lemma RejectsEmpty()
    ensures ParseRequestUri("") == Failure(EmptyUrl)
  {
  }
}
