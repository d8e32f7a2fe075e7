/**
 The endpoint tag of an outbound call: a URL reduced to its path, without
 scheme, authority, query string, matrix parameters or fragment, so that the
 tag takes few distinct values.
 */
module Paths {
  import opened GoLib

  /** The characters that end a path: query string, fragment, matrix parameters. */
  const Delimiters: string := "?#;"

  predicate IsDelimiter(ch: char) {
    ch in Delimiters
  }

  /** `i` is the first index at or after `from` holding `c`. */
  ghost predicate FirstFrom(s: string, from: int, i: int, c: char) {
    && 0 <= from <= i < |s|
    && s[i] == c
    && forall j :: from <= j < i ==> s[j] != c
  }

  /** No index at or after `from` holds `c`. */
  ghost predicate AbsentFrom(s: string, from: int, c: char) {
    forall j :: 0 <= from <= j < |s| ==> s[j] != c
  }

  /**
   The path that starts at `p` ends at `e`: `e` is the first index after `p`
   holding a delimiter, or the end of `s` when there is none.
   */
  ghost predicate PathEnd(s: string, p: int, e: int) {
    && 0 <= p < e <= |s|
    && (e < |s| ==> IsDelimiter(s[e]))
    && forall j :: p < j < e ==> !IsDelimiter(s[j])
  }

  /**
   Reference definition of the endpoint of `url`. pathFromUrl has six returns
   and this definition five disjuncts: the empty URL gives "/"; a URL without
   ':' is its own path; so is one whose suffix from the first ':' is shorter
   than three characters; otherwise the three characters from that ':' are
   taken to be "://" (without checking), and the endpoint is "/" when no '/'
   follows, or else the run from the next '/' up to the first delimiter. That
   last disjunct covers two returns, the cut at a delimiter and the rest of
   the URL when there is none, since PathEnd allows either end.
   */
  ghost predicate EndpointOf(url: string, r: string) {
    || (url == "" && r == "/")
    || (url != "" && AbsentFrom(url, 0, ':') && r == url)
    || (exists c :: FirstFrom(url, 0, c, ':') && |url| - c < 3 && r == url)
    || (exists c :: FirstFrom(url, 0, c, ':') && |url| - c >= 3 && AbsentFrom(url, c + 3, '/') && r == "/")
    || (exists c, p, e ::
          && FirstFrom(url, 0, c, ':') && |url| - c >= 3
          && FirstFrom(url, c + 3, p, '/') && PathEnd(url, p, e)
          && r == url[p..e])
  }

  /** `r` occurs in `s` as a contiguous run. */
  ghost predicate OccursIn(r: string, s: string) {
    exists i :: 0 <= i <= |s| && r <= s[i..]
  }

  /**
   pathFromUrl. Every index it slices at is within bounds, and the result is
   never empty: either the input itself, or a '/'-led run of the input free of
   delimiters, or "/".
   */
  function PathFromUrl(url: string): (r: string)
    ensures 0 < |r|
    ensures r == url || r[0] == '/'
    ensures r == url || forall j :: 0 <= j < |r| ==> !IsDelimiter(r[j])
  {
    if url == "" then "/"
    else
      var protoEnd := IndexByte(url, ':');
      if protoEnd < 0 then url
      else
        var protocolLen := |url| - protoEnd;
        if protocolLen < 3 then url
        else PathAfter(url, protoEnd + 3)
  }

  /**
   The second half of pathFromUrl: the path of `url` when the scheme and "://"
   are taken to end just before `from`.
   */
  function PathAfter(url: string, from: int): (r: string)
    requires 0 <= from <= |url|
    ensures 0 < |r| && r[0] == '/'
    ensures forall j :: 0 <= j < |r| ==> !IsDelimiter(r[j])
  {
    var slash := IndexByte(url[from..], '/');
    if slash < 0 then "/" else PathAt(url, slash + from)
  }

  /** The path that starts with the '/' at `pathBegin`, cut at the first delimiter after it. */
  function PathAt(url: string, pathBegin: int): (r: string)
    requires 0 <= pathBegin < |url| && url[pathBegin] == '/'
    ensures 0 < |r| && r[0] == '/'
    ensures forall j :: 0 <= j < |r| ==> !IsDelimiter(r[j])
  {
    var delim := IndexAny(url[pathBegin + 1..], Delimiters);
    if delim < 0 then
      assert url[pathBegin..][1..] == url[pathBegin + 1..];
      url[pathBegin..]
    else
      var pathEnd := delim + pathBegin + 1;
      assert url[pathBegin..pathEnd][1..] == url[pathBegin + 1..][..delim];
      url[pathBegin..pathEnd]
  }

  /** The reference definition determines the endpoint: it is a function of the URL. */
  lemma EndpointOfUnique(url: string, r1: string, r2: string)
    requires EndpointOf(url, r1) && EndpointOf(url, r2)
    ensures r1 == r2
  {
  }

  /** Searching the suffix from `from` for `c` finds the first `c` at or after `from`. */
  lemma IndexByteFrom(url: string, from: int, c: char)
    requires 0 <= from <= |url|
    ensures IndexByte(url[from..], c) < 0 <==> AbsentFrom(url, from, c)
    ensures IndexByte(url[from..], c) >= 0 ==> FirstFrom(url, from, IndexByte(url[from..], c) + from, c)
  {
    var rest := url[from..];
    forall j | from <= j < |url| ensures url[j] == rest[j - from] {
    }
  }

  /** PathAt cuts exactly at the end of the path. */
  lemma PathAtMeetsSpec(url: string, p: int, e: int)
    requires 0 <= p < |url| && url[p] == '/' && PathEnd(url, p, e)
    ensures PathAt(url, p) == url[p..e]
  {
    var tail := url[p + 1..];
    var d := IndexAny(tail, Delimiters);
    forall j | p < j < |url| ensures url[j] == tail[j - (p + 1)] {
    }
    if d < 0 {
      assert e == |url|;
      assert url[p..] == url[p..e];
    } else {
      assert e == d + p + 1;
    }
  }

  /** A path end always exists after a '/'. */
  lemma PathEndExists(url: string, p: int) returns (e: int)
    requires 0 <= p < |url|
    ensures PathEnd(url, p, e)
  {
    var tail := url[p + 1..];
    var d := IndexAny(tail, Delimiters);
    forall j | p < j < |url| ensures url[j] == tail[j - (p + 1)] {
    }
    e := if d < 0 then |url| else d + p + 1;
  }

  /** PathAfter gives "/" when no '/' occurs at or after `from`. */
  lemma PathAfterWithoutSlash(url: string, from: int)
    requires 0 <= from <= |url| && AbsentFrom(url, from, '/')
    ensures PathAfter(url, from) == "/"
  {
    IndexByteFrom(url, from, '/');
  }

  /** Otherwise PathAfter gives the path from the first '/' at or after `from`. */
  lemma PathAfterWithSlash(url: string, from: int, p: int, e: int)
    requires 0 <= from <= |url| && FirstFrom(url, from, p, '/') && PathEnd(url, p, e)
    ensures PathAfter(url, from) == url[p..e]
  {
    IndexByteFrom(url, from, '/');
    assert p == IndexByte(url[from..], '/') + from;
    PathAtMeetsSpec(url, p, e);
  }

  /** pathFromUrl computes exactly the endpoint of the reference definition. */
  lemma PathFromUrlMeetsSpec(url: string)
    ensures EndpointOf(url, PathFromUrl(url))
  {
    var r := PathFromUrl(url);
    if url == "" {
      assert url == "" && r == "/";
    } else {
      var c := IndexByte(url, ':');
      if c < 0 {
        assert url != "" && AbsentFrom(url, 0, ':') && r == url;
      } else {
        assert FirstFrom(url, 0, c, ':');
        if |url| - c < 3 {
          assert FirstFrom(url, 0, c, ':') && |url| - c < 3 && r == url;
        } else {
          assert r == PathAfter(url, c + 3);
          if AbsentFrom(url, c + 3, '/') {
            PathAfterWithoutSlash(url, c + 3);
            assert FirstFrom(url, 0, c, ':') && |url| - c >= 3 && AbsentFrom(url, c + 3, '/') && r == "/";
          } else {
            IndexByteFrom(url, c + 3, '/');
            var p := IndexByte(url[c + 3..], '/') + c + 3;
            var e := PathEndExists(url, p);
            PathAfterWithSlash(url, c + 3, p, e);
            assert FirstFrom(url, 0, c, ':') && |url| - c >= 3
              && FirstFrom(url, c + 3, p, '/') && PathEnd(url, p, e) && r == url[p..e];
          }
        }
      }
    }
  }

  /** The endpoint is "/" or a contiguous run of the URL. */
  lemma PathFromUrlOccursInUrl(url: string)
    ensures PathFromUrl(url) == "/" || OccursIn(PathFromUrl(url), url)
  {
    var r := PathFromUrl(url);
    PathFromUrlMeetsSpec(url);
    if r == url {
      assert r <= url[0..];
    } else if r != "/" {
      var c, p, e :| FirstFrom(url, 0, c, ':') && |url| - c >= 3
        && FirstFrom(url, c + 3, p, '/') && PathEnd(url, p, e) && r == url[p..e];
      assert r <= url[p..];
    }
  }

  /** pathFromUrl and the reference definition agree in both directions. */
  lemma PathFromUrlIff(url: string, r: string)
    ensures PathFromUrl(url) == r <==> EndpointOf(url, r)
  {
    PathFromUrlMeetsSpec(url);
    if EndpointOf(url, r) {
      EndpointOfUnique(url, PathFromUrl(url), r);
    }
  }

  /** The empty URL has endpoint "/". */
  lemma PathOfEmpty()
    ensures PathFromUrl("") == "/"
  {
  }

  /** A non-empty URL without ':' is already a path. */
  lemma PathWithoutColon(url: string)
    requires url != "" && ':' !in url
    ensures PathFromUrl(url) == url
  {
  }

  /** When fewer than three characters follow the first ':' (itself included), the URL is kept. */
  lemma PathShortAfterColon(url: string, c: int)
    requires FirstFrom(url, 0, c, ':') && |url| - c < 3
    ensures PathFromUrl(url) == url
  {
  }

  /** No '/' from three past the first ':' on: the URL has no path, and the endpoint is "/". */
  lemma PathWithoutPath(url: string, c: int)
    requires FirstFrom(url, 0, c, ':') && |url| - c >= 3 && AbsentFrom(url, c + 3, '/')
    ensures PathFromUrl(url) == "/"
  {
  }

  /** Otherwise the endpoint is the run from the first such '/' to the first delimiter after it. */
  lemma PathSlice(url: string, c: int, p: int, e: int)
    requires FirstFrom(url, 0, c, ':') && |url| - c >= 3
    requires FirstFrom(url, c + 3, p, '/') && PathEnd(url, p, e)
    ensures PathFromUrl(url) == url[p..e]
  {
    PathFromUrlIff(url, url[p..e]);
  }

  /** Worked cases of the endpoint extraction. */
  lemma PathOfHostOnly()
    ensures PathFromUrl("http://host") == "/"
  {
    PathWithoutPath("http://host", 4);
  }

  lemma PathDropsQuery()
    ensures PathFromUrl("http://host/foo/bar?x=1") == "/foo/bar"
  {
    var u := "http://host/foo/bar?x=1";
    assert FirstFrom(u, 0, 4, ':');
    assert FirstFrom(u, 7, 11, '/');
    assert PathEnd(u, 11, 19);
    assert u[11..19] == "/foo/bar";
    PathSlice(u, 4, 11, 19);
  }

  lemma PathDropsFragment()
    ensures PathFromUrl("http://host/foo#frag") == "/foo"
  {
    var u := "http://host/foo#frag";
    assert FirstFrom(u, 0, 4, ':');
    assert FirstFrom(u, 7, 11, '/');
    assert PathEnd(u, 11, 15);
    assert u[11..15] == "/foo";
    PathSlice(u, 4, 11, 15);
  }

  lemma PathDropsMatrixParameters()
    ensures PathFromUrl("http://host/foo;matrix=1") == "/foo"
  {
    var u := "http://host/foo;matrix=1";
    assert FirstFrom(u, 0, 4, ':');
    assert FirstFrom(u, 7, 11, '/');
    assert PathEnd(u, 11, 15);
    assert u[11..15] == "/foo";
    PathSlice(u, 4, 11, 15);
  }

  lemma PathOfShortScheme()
    ensures PathFromUrl("a:b") == "a:b"
  {
  }

  lemma PathOfShortUrl()
    ensures PathFromUrl("http://x/a/b") == "/a/b"
  {
    var u := "http://x/a/b";
    assert FirstFrom(u, 0, 4, ':');
    assert FirstFrom(u, 7, 8, '/');
    assert PathEnd(u, 8, 12);
    assert u[8..12] == "/a/b";
    PathSlice(u, 4, 8, 12);
  }
}
