/** The peer registry's address parsing (`register_node`). The node keeps a set of
    `host:port` strings and derives each from the caller's address with Python's
    `urllib.parse.urlparse` (as of Python 3.11), taking the network location, or the path when
    there is none. */
module Peers {
  import opened PyJson

  // ---------------------------------------------------------------------------------------
  // String helpers (`str.find`, `str.rfind`, `str.lower`)
  // ---------------------------------------------------------------------------------------

  /** `s.find(c)` */
  function Find(s: string, c: char): (i: int)
    ensures -1 <= i < |s|
    ensures i >= 0 ==> s[i] == c && c !in s[..i]
    ensures i < 0 <==> c !in s
  {
    if s == [] then -1
    else if s[0] == c then 0
    else
      var j := Find(s[1..], c);
      assert s[1..][..if j < 0 then 0 else j] == s[1..1 + if j < 0 then 0 else j];
      if j < 0 then -1 else j + 1
  }

  /** `s.find(c, start)` for `0 <= start <= |s|` */
  function FindFrom(s: string, c: char, start: int): (i: int)
    requires 0 <= start <= |s|
    ensures i == -1 || start <= i < |s|
    ensures i >= 0 ==> s[i] == c && c !in s[start..i]
    ensures i < 0 <==> c !in s[start..]
  {
    var j := Find(s[start..], c);
    if j < 0 then -1 else
      assert s[start..][..j] == s[start..start + j];
      start + j
  }

  /** `s.rfind(c)` */
  function RFind(s: string, c: char): (i: int)
    ensures -1 <= i < |s|
    ensures i >= 0 ==> s[i] == c && c !in s[i + 1..]
    ensures i < 0 <==> c !in s
  {
    if s == [] then -1
    else if s[|s| - 1] == c then |s| - 1
    else
      var j := RFind(s[..|s| - 1], c);
      assert j >= 0 ==> s[j + 1..] == s[..|s| - 1][j + 1..] + [s[|s| - 1]];
      assert j < 0 ==> s == s[..|s| - 1] + [s[|s| - 1]];
      j
  }

  predicate IsAsciiLetter(c: char)
  {
    'a' <= c <= 'z' || 'A' <= c <= 'Z'
  }

  /** `urllib.parse.scheme_chars` */
  predicate IsSchemeChar(c: char)
  {
    IsAsciiLetter(c) || IsDigit(c) || c == '+' || c == '-' || c == '.'
  }

  /** `s.lower()` on the ASCII text a scheme consists of. */
  function Lower(s: string): (r: string)
    ensures |r| == |s|
  {
    seq(|s|, k requires 0 <= k < |s| => if 'A' <= s[k] <= 'Z' then (s[k] as int + 32) as char else s[k])
  }

  /** The characters WHATWG calls C0 control or space, stripped from the front of a URL. */
  predicate IsC0OrSpace(c: char)
  {
    c <= ' '
  }

  function LStripC0(s: string): (r: string)
    ensures |r| <= |s| && r == s[|s| - |r|..]
    ensures r == [] || !IsC0OrSpace(r[0])
    ensures s != [] && !IsC0OrSpace(s[0]) ==> r == s
  {
    if s == [] || !IsC0OrSpace(s[0]) then s else LStripC0(s[1..])
  }

  /** Tab, carriage return and line feed are deleted from anywhere in a URL. */
  predicate IsUnsafeUrlChar(c: char)
  {
    c == '\t' || c == '\r' || c == '\n'
  }

  function RemoveUnsafe(s: string): (r: string)
    ensures forall k :: 0 <= k < |r| ==> !IsUnsafeUrlChar(r[k])
    ensures (forall k :: 0 <= k < |s| ==> !IsUnsafeUrlChar(s[k])) ==> r == s
  {
    if s == [] then []
    else (if IsUnsafeUrlChar(s[0]) then [] else [s[0]]) + RemoveUnsafe(s[1..])
  }

  // ---------------------------------------------------------------------------------------
  // urlsplit / urlparse
  // ---------------------------------------------------------------------------------------

  /** The text `urlsplit` works on: leading C0 controls and spaces stripped, then tab, CR
      and LF removed. */
  function Clean(url: string): string
  {
    RemoveUnsafe(LStripC0(url))
  }

  lemma CleanKeeps(url: string)
    requires forall k :: 0 <= k < |url| ==> !IsC0OrSpace(url[k])
    ensures Clean(url) == url
  {
    assert forall k :: 0 <= k < |url| ==> !IsUnsafeUrlChar(url[k]) by {
      forall k | 0 <= k < |url| ensures !IsUnsafeUrlChar(url[k]) {
        assert !IsC0OrSpace(url[k]);
      }
    }
  }

  /** The scheme prefix `url[:i]` is taken only when the first ':' is not at the start, the
      first character is an ASCII letter and every character before the ':' is a scheme
      character. */
  predicate HasScheme(url: string)
  {
    var i := Find(url, ':');
    i > 0 && IsAsciiLetter(url[0]) && forall k :: 0 <= k < i ==> IsSchemeChar(url[k])
  }

  /** The lower-cased scheme and what follows its ':', or no scheme and the whole text. */
  function SchemeSplit(url: string): (r: (string, string))
    ensures !HasScheme(url) ==> r == ("", url)
  {
    if HasScheme(url) then (Lower(url[..Find(url, ':')]), url[Find(url, ':') + 1..]) else ("", url)
  }

  /** A scheme name as `urlsplit` recognises one. */
  predicate SchemeName(s: string)
  {
    s != [] && IsAsciiLetter(s[0]) && forall k :: 0 <= k < |s| ==> IsSchemeChar(s[k])
  }

  /** Where the first `c` is, when `prefix` holds none and `suffix` starts with one. */
  lemma FindAfterPrefix(prefix: string, c: char, suffix: string)
    requires c !in prefix && suffix != [] && suffix[0] == c
    ensures Find(prefix + suffix, c) == |prefix|
  {
    var s := prefix + suffix;
    assert s[|prefix|] == c;
    assert forall j :: 0 <= j < |prefix| ==> s[j] == prefix[j];
    var i := Find(s, c);
  }

  lemma SchemeSplitOf(scheme: string, rest: string)
    requires SchemeName(scheme)
    ensures SchemeSplit(scheme + ":" + rest) == (Lower(scheme), rest)
  {
    var url := scheme + ":" + rest;
    assert ':' !in scheme by {
      forall k | 0 <= k < |scheme| ensures scheme[k] != ':' {
        assert IsSchemeChar(scheme[k]);
      }
    }
    assert url == scheme + (":" + rest);
    FindAfterPrefix(scheme, ':', ":" + rest);
    assert url[0] == scheme[0];
    assert url[..|scheme|] == scheme;
    assert HasScheme(url);
    assert url[|scheme| + 1..] == rest;
  }

  /** Where `_splitnetloc(url, 2)` ends the network location: at the first '/', '?' or '#'
      from index 2 on, or at the end. */
  function NetlocEnd(url: string): (e: int)
    requires 2 <= |url|
    ensures 2 <= e <= |url|
    ensures forall k :: 2 <= k < e ==> url[k] != '/' && url[k] != '?' && url[k] != '#'
    ensures e < |url| ==> url[e] == '/' || url[e] == '?' || url[e] == '#'
  {
    var a, b, c := FindFrom(url, '/', 2), FindFrom(url, '?', 2), FindFrom(url, '#', 2);
    var e := |url|;
    var e := if a >= 0 && a < e then a else e;
    var e := if b >= 0 && b < e then b else e;
    var e := if c >= 0 && c < e then c else e;
    NoneBefore(url, '/', 2, e);
    NoneBefore(url, '?', 2, e);
    NoneBefore(url, '#', 2, e);
    e
  }

  /** Nothing before where `find` stops (or anywhere, when it finds nothing) is `c`. */
  lemma NoneBefore(s: string, c: char, start: int, e: int)
    requires 0 <= start <= e <= |s|
    requires FindFrom(s, c, start) < 0 || e <= FindFrom(s, c, start)
    ensures forall k :: start <= k < e ==> s[k] != c
  {
    var i := FindFrom(s, c, start);
    forall k | start <= k < e ensures s[k] != c {
      if i < 0 {
        assert s[k] == s[start..][k - start];
      } else {
        assert s[k] == s[start..i][k - start];
      }
    }
  }

  /** `_splitnetloc(url, 2)` when the text starts with "//": the network location and what
      follows it; otherwise no network location. */
  function NetlocSplit(rest: string): (r: (string, string))
    ensures !(|rest| >= 2 && rest[..2] == "//") ==> r == ("", rest)
  {
    if |rest| >= 2 && rest[..2] == "//" then (rest[2..NetlocEnd(rest)], rest[NetlocEnd(rest)..]) else ("", rest)
  }

  /** The network location of `"//" + h + tail`, where `tail` starts where a network location
      ends. */
  lemma NetlocSplitOf(h: string, tail: string)
    requires HostPort(h)
    requires tail == [] || tail[0] == '/' || tail[0] == '?' || tail[0] == '#'
    ensures NetlocSplit("//" + h + tail) == (h, tail)
  {
    var u := "//" + h + tail;
    assert u[..2] == "//";
    forall k | 2 <= k < |h| + 2 ensures u[k] != '/' && u[k] != '?' && u[k] != '#' {
      assert u[k] == h[k - 2];
    }
    assert tail != [] ==> u[|h| + 2] == tail[0];
    assert u[2..|h| + 2] == h;
    assert u[|h| + 2..] == tail;
  }

  datatype UrlParts = UrlParts(scheme: string, netloc: string, path: string, params: string,
                               query: string, fragment: string)

  /** `url.split(c, 1)` when `c in url`, else `(url, "")`. */
  function SplitOnce(url: string, c: char): (r: (string, string))
    ensures c !in url ==> r == (url, "")
    ensures c in url ==> url == r.0 + [c] + r.1 && c !in r.0
  {
    var i := Find(url, c);
    if i < 0 then (url, "") else
      assert url == url[..i] + [c] + url[i + 1..];
      (url[..i], url[i + 1..])
  }

  /** `urllib.parse.uses_params` */
  const UsesParams: set<string> :=
    {"", "ftp", "hdl", "prospero", "http", "imap", "https", "shttp", "rtsp", "rtspu", "sip",
     "sips", "mms", "sftp", "tel"}

  /** `_splitparams(path)`: the parameters start at the first ';' of the last path segment. */
  function SplitParams(path: string): (r: (string, string))
    requires ';' in path
  {
    var i := if '/' in path then FindFrom(path, ';', RFind(path, '/')) else Find(path, ';');
    if i < 0 then (path, "") else (path[..i], path[i + 1..])
  }

  /** What follows the network location: the fragment after the first '#', the query after
      the first '?' of the rest, and, for the schemes that use them, the parameters. */
  function SplitTail(scheme: string, netloc: string, rest: string): (r: UrlParts)
    ensures r.scheme == scheme && r.netloc == netloc
    ensures '#' !in rest && '?' !in rest && ';' !in rest ==> r.path == rest
  {
    var (rest, fragment) := SplitOnce(rest, '#');
    var (path, query) := SplitOnce(rest, '?');
    var (path, params) := if scheme in UsesParams && ';' in path then SplitParams(path) else (path, "");
    UrlParts(scheme, netloc, path, params, query, fragment)
  }

  /** `urlparse(url)`, or the ValueError it raises for an unbalanced '[' or ']' in the
      network location. */
  function UrlParse(url: string): (r: Conv<UrlParts>)
    ensures r.Raise? ==> r.error == ValueError
  {
    var (scheme, rest) := SchemeSplit(Clean(url));
    var (netloc, rest) := NetlocSplit(rest);
    if ('[' in netloc) != (']' in netloc) then Raise(ValueError)
    else Ok(SplitTail(scheme, netloc, rest))
  }

  // ---------------------------------------------------------------------------------------
  // What register_node adds
  // ---------------------------------------------------------------------------------------

  /** `parsed.netloc or parsed.path`, kept only when non-empty: the entry `register_node`
      adds, exactly as the code computes it. */
  function NodeEntryAsWritten(address: string): (r: Conv<Option<string>>)
    ensures r.Ok? && r.value.Some? ==> r.value.value != ""
  {
    match UrlParse(address)
    case Raise(e) => Raise(e)
    case Ok(p) =>
      var entry := if p.netloc != "" then p.netloc else p.path;
      Ok(if entry != "" then Some(entry) else None)
  }

  predicate Digits(s: string)
  {
    s != [] && forall k :: 0 <= k < |s| ==> IsDigit(s[k])
  }

  lemma HostPortIsClean(host: string, port: string)
    requires SchemeName(host) && Digits(port)
    ensures Clean(host + ":" + port) == host + ":" + port
  {
    var url := host + ":" + port;
    forall k | 0 <= k < |url| ensures !IsC0OrSpace(url[k]) {
      if k < |host| {
        assert url[k] == host[k] && IsSchemeChar(host[k]);
      } else if k > |host| {
        assert url[k] == port[k - |host| - 1] && IsDigit(port[k - |host| - 1]);
      }
    }
    CleanKeeps(url);
  }

  lemma DigitsHaveNoDelimiters(port: string)
    requires Digits(port)
    ensures '#' !in port && '?' !in port && ';' !in port
    ensures NetlocSplit(port) == ("", port)
  {
    forall c | c in port ensures c != '#' && c != '?' && c != ';' {
      var k :| 0 <= k < |port| && port[k] == c;
      assert IsDigit(port[k]);
    }
    if |port| >= 2 {
      assert port[..2][0] == port[0] && IsDigit(port[0]);
    }
  }

  /** A scheme-less `name:port` loses its host: the name is read as a URL scheme and only the
      port is registered. */
  lemma AsWrittenDropsHostName(host: string, port: string)
    requires SchemeName(host) && Digits(port)
    ensures NodeEntryAsWritten(host + ":" + port) == Ok(Some(port))
  {
    HostPortIsClean(host, port);
    SchemeSplitOf(host, port);
    DigitsHaveNoDelimiters(port);
    assert UrlParse(host + ":" + port) == Ok(SplitTail(Lower(host), "", port));
  }

  /** The documented example that goes wrong. */
  lemma LocalhostExample()
    ensures NodeEntryAsWritten("localhost:5001") == Ok(Some("5001"))
  {
    assert "localhost:5001" == "localhost" + ":" + "5001";
    assert SchemeName("localhost") by {
      forall k | 0 <= k < |"localhost"| ensures IsSchemeChar("localhost"[k]) {
        assert IsAsciiLetter("localhost"[k]);
      }
    }
    assert Digits("5001") by {
      forall k | 0 <= k < |"5001"| ensures IsDigit("5001"[k]) {
      }
    }
    AsWrittenDropsHostName("localhost", "5001");
  }

  /** A "://" starts at index `k` of `s`. */
  predicate SeparatorAt(s: string, k: int)
  {
    0 <= k && k + 3 <= |s| && s[k..k + 3] == "://"
  }

  /** `"://" in s` */
  predicate HasSchemeSeparator(s: string)
  {
    exists k :: 0 <= k <= |s| - 3 && SeparatorAt(s, k)
  }

  /** `s.startswith("//")` */
  predicate StartsWithSlashes(s: string)
  {
    |s| >= 2 && s[..2] == "//"
  }

  /** The text the corrected reading parses: the address itself when it names a scheme
      (`"://"`); otherwise the address with its leading blanks and control characters
      stripped, behind "//" unless it already starts with "//", so that a bare `host:port`
      is always a network location. */
  function PeerUrl(address: string): string
  {
    if HasSchemeSeparator(address) then address
    else
      var s := LStripC0(address);
      if StartsWithSlashes(s) then s else "//" + s
  }

  /** The entry to register: the network location of `PeerUrl(address)`, or None when it is
      empty. */
  function PeerAddress(address: string): (r: Conv<Option<string>>)
    ensures r.Ok? && r.value.Some? ==> r.value.value != ""
  {
    match UrlParse(PeerUrl(address))
    case Raise(e) => Raise(e)
    case Ok(p) => Ok(if p.netloc != "" then Some(p.netloc) else None)
  }

  /** For an address that names a scheme both readings parse the same URL, and they agree
      exactly when it raises, has a network location, or has an empty path: the code as
      written falls back to the path, the corrected reading does not. */
  lemma ReadingsAgreeOnUrl(address: string)
    requires HasSchemeSeparator(address)
    ensures NodeEntryAsWritten(address) == PeerAddress(address) <==>
      UrlParse(address).Raise? || UrlParse(address).value.netloc != "" || UrlParse(address).value.path == ""
  {
    assert PeerUrl(address) == address;
    match UrlParse(address)
    case Raise(e) =>
    case Ok(p) =>
      if p.netloc == "" && p.path != "" {
        assert NodeEntryAsWritten(address) == Ok(Some(p.path));
        assert PeerAddress(address) == Ok(None);
      }
  }

  /** Text that can stand for a host and port: non-empty, with no whitespace or control
      characters and none of the characters that end or bracket a network location. */
  predicate HostPort(h: string)
  {
    h != [] && forall k :: 0 <= k < |h| ==>
      !IsC0OrSpace(h[k]) && h[k] != '/' && h[k] != '?' && h[k] != '#' && h[k] != '[' && h[k] != ']'
  }

  lemma HostPortChars(h: string)
    requires HostPort(h)
    ensures '/' !in h && '[' !in h && ']' !in h
  {
    forall c | c in h ensures c != '/' && c != '[' && c != ']' {
      var k :| 0 <= k < |h| && h[k] == c;
    }
  }

  /** Stripping a run of blanks and control characters in front of text that does not start
      with one leaves that text. */
  lemma LStripC0Blanks(ws: string, h: string)
    requires forall k :: 0 <= k < |ws| ==> IsC0OrSpace(ws[k])
    requires h != [] && !IsC0OrSpace(h[0])
    ensures LStripC0(ws + h) == h
  {
    if ws != [] {
      assert (ws + h)[0] == ws[0];
      assert (ws + h)[1..] == ws[1..] + h;
      LStripC0Blanks(ws[1..], h);
    } else {
      assert ws + h == h;
    }
  }

  /** Blanks followed by a host and port hold no "://" and lose their blanks: the corrected
      reading parses `"//" + h`. */
  lemma PeerUrlOfBareHost(ws: string, h: string)
    requires forall k :: 0 <= k < |ws| ==> IsC0OrSpace(ws[k])
    requires HostPort(h)
    ensures PeerUrl(ws + h) == "//" + h
  {
    HostPortChars(h);
    var a := ws + h;
    forall k | 0 <= k <= |a| - 3 ensures !SeparatorAt(a, k) {
      assert a[k..k + 3][1] == a[k + 1];
      if k + 1 < |ws| {
        assert a[k + 1] == ws[k + 1] && IsC0OrSpace(ws[k + 1]);
      } else {
        assert a[k + 1] == h[k + 1 - |ws|];
      }
    }
    LStripC0Blanks(ws, h);
    if |h| >= 2 { assert h[..2][0] == h[0]; }
  }

  /** `"//" + h` holds nothing that cleaning strips. */
  lemma SlashesHostIsClean(h: string)
    requires HostPort(h)
    ensures Clean("//" + h) == "//" + h
  {
    var u := "//" + h;
    forall k | 0 <= k < |u| ensures !IsC0OrSpace(u[k]) {
      if k >= 2 { assert u[k] == h[k - 2]; }
    }
    CleanKeeps(u);
  }

  /** `urlparse("//" + h)` has the network location `h`. */
  lemma NetlocOfBareHost(h: string)
    requires HostPort(h)
    ensures UrlParse("//" + h).Ok? && UrlParse("//" + h).value.netloc == h
  {
    HostPortChars(h);
    var u := "//" + h;
    SlashesHostIsClean(h);
    assert !IsAsciiLetter(u[0]);
    assert SchemeSplit(u) == ("", u);
    assert u == "//" + h + "";
    NetlocSplitOf(h, "");
  }

  /** A bare `host:port` (or any bare host), after any leading blanks, is registered as
      given. */
  lemma PeerAddressOfHostPort(ws: string, h: string)
    requires forall k :: 0 <= k < |ws| ==> IsC0OrSpace(ws[k])
    requires HostPort(h)
    ensures PeerAddress(ws + h) == Ok(Some(h))
  {
    PeerUrlOfBareHost(ws, h);
    NetlocOfBareHost(h);
  }

  /** The path `urlparse` leaves after the scheme, for text without a network location, '?'
      or '#': never longer than that text, and shorter when a ';' cuts off parameters from a
      text without '/'. */
  lemma SplitTailPath(scheme: string, rest: string)
    requires '#' !in rest && '?' !in rest
    ensures |SplitTail(scheme, "", rest).path| <= |rest|
    ensures scheme in UsesParams && ';' in rest && '/' !in rest ==>
      |SplitTail(scheme, "", rest).path| < |rest|
  {
    if scheme in UsesParams && ';' in rest {
      if '/' in rest {
        var i := FindFrom(rest, ';', RFind(rest, '/'));
      } else {
        var i := Find(rest, ';');
        assert SplitParams(rest) == (rest[..i], rest[i + 1..]);
      }
    }
  }

  lemma HostPortHasNoDelimiters(h: string)
    requires HostPort(h)
    ensures '/' !in h && '#' !in h && '?' !in h && Clean(h) == h
  {
    HostPortChars(h);
    CleanKeeps(h);
    forall c | c in h ensures c != '#' && c != '?' {
      var k :| 0 <= k < |h| && h[k] == c;
    }
  }

  /** As written, a host and port that `urlparse` reads a scheme off is stored shortened, or
      not at all. */
  lemma AsWrittenOfSchemedHost(h: string)
    requires HostPort(h) && HasScheme(h)
    ensures NodeEntryAsWritten(h) != Ok(Some(h))
  {
    HostPortHasNoDelimiters(h);
    var i := Find(h, ':');
    var rest := h[i + 1..];
    assert SchemeSplit(h) == (Lower(h[..i]), rest);
    assert '/' !in rest && '#' !in rest && '?' !in rest;
    assert NetlocSplit(rest) == ("", rest) by {
      if |rest| >= 2 { assert rest[..2][0] == rest[0]; }
    }
    SplitTailPath(Lower(h[..i]), rest);
    assert UrlParse(h) == Ok(SplitTail(Lower(h[..i]), "", rest));
  }

  /** As written, a host and port without a scheme is stored whole iff it holds no ';'. */
  lemma AsWrittenOfBareHost(h: string)
    requires HostPort(h) && !HasScheme(h)
    ensures NodeEntryAsWritten(h) == Ok(Some(h)) <==> ';' !in h
  {
    HostPortHasNoDelimiters(h);
    assert NetlocSplit(h) == ("", h) by {
      if |h| >= 2 { assert h[..2][0] == h[0]; }
    }
    SplitTailPath("", h);
    assert UrlParse(h) == Ok(SplitTail("", "", h));
  }

  /** For an address shaped like a host and port, the code as written stores what the
      corrected reading stores exactly when no scheme is read off its front and it holds no
      ';' (which `urlparse` cuts off as parameters). */
  lemma ReadingsAgreeOnBareHost(h: string)
    requires HostPort(h)
    ensures NodeEntryAsWritten(h) == PeerAddress(h) <==> !HasScheme(h) && ';' !in h
  {
    PeerAddressOfHostPort([], h);
    assert [] + h == h;
    if HasScheme(h) {
      AsWrittenOfSchemedHost(h);
    } else {
      AsWrittenOfBareHost(h);
    }
  }

  /** A URL made of a scheme name, a host and port, and a clean tail has no character that
      cleaning would strip. */
  lemma UrlOfHostPortIsClean(scheme: string, h: string, tail: string)
    requires SchemeName(scheme) && HostPort(h)
    requires forall k :: 0 <= k < |tail| ==> !IsC0OrSpace(tail[k])
    ensures Clean(scheme + "://" + h + tail) == scheme + "://" + h + tail
  {
    var url := scheme + "://" + h + tail;
    forall k | 0 <= k < |url| ensures !IsC0OrSpace(url[k]) {
      if k < |scheme| {
        assert url[k] == scheme[k] && IsSchemeChar(scheme[k]);
      } else if k < |scheme| + 3 {
      } else if k < |scheme| + 3 + |h| {
        assert url[k] == h[k - |scheme| - 3];
      } else {
        assert url[k] == tail[k - |scheme| - 3 - |h|];
      }
    }
    CleanKeeps(url);
  }

  lemma SchemeThenRest(scheme: string, h: string, tail: string)
    ensures scheme + "://" + h + tail == scheme + ":" + ("//" + h + tail)
  {
    assert "://" == ":" + "//";
  }

  /** `urlparse` of `scheme://host:port` followed by a path, query or fragment. */
  lemma UrlOfHostPortParses(scheme: string, h: string, tail: string)
    requires SchemeName(scheme) && HostPort(h)
    requires tail == [] || tail[0] == '/' || tail[0] == '?' || tail[0] == '#'
    requires forall k :: 0 <= k < |tail| ==> !IsC0OrSpace(tail[k])
    ensures UrlParse(scheme + "://" + h + tail) == Ok(SplitTail(Lower(scheme), h, tail))
  {
    HostPortChars(h);
    var url := scheme + "://" + h + tail;
    UrlOfHostPortIsClean(scheme, h, tail);
    var rest := "//" + h + tail;
    SchemeThenRest(scheme, h, tail);
    SchemeSplitOf(scheme, rest);
    NetlocSplitOf(h, tail);
    assert SchemeSplit(Clean(url)) == (Lower(scheme), rest);
    assert NetlocSplit(rest) == (h, tail);
    assert ('[' in h) == (']' in h);
  }

  /** `scheme://host:port/...` is registered as its `host:port`, by the fix and by the code
      alike. */
  lemma PeerAddressOfUrl(scheme: string, h: string, tail: string)
    requires SchemeName(scheme) && HostPort(h)
    requires tail == [] || tail[0] == '/' || tail[0] == '?' || tail[0] == '#'
    requires forall k :: 0 <= k < |tail| ==> !IsC0OrSpace(tail[k])
    ensures PeerAddress(scheme + "://" + h + tail) == Ok(Some(h))
    ensures NodeEntryAsWritten(scheme + "://" + h + tail) == Ok(Some(h))
  {
    var url := scheme + "://" + h + tail;
    assert SeparatorAt(url, |scheme|);
    UrlOfHostPortParses(scheme, h, tail);
  }
}
