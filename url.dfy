/** How a request URL becomes a path under the document root: take the
    pathname of the URL, put a `.` in front, turn every `%2520` into `%20`,
    collapse a leading run of dots into one, drop one trailing `/`, and
    resolve the result against the document root. */
module Url {
  import opened Paths

  /** `url.parse(u).pathname` for a request target in origin form: the
      text before the first `?` (the query) or `#` (the fragment). */
  function UrlPathname(u: string): (r: string)
    ensures |r| <= |u| && r == u[..|r|]
    ensures '?' !in r && '#' !in r
    ensures |r| < |u| ==> u[|r|] == '?' || u[|r|] == '#'
  {
    if u == [] || u[0] == '?' || u[0] == '#' then []
    else [u[0]] + UrlPathname(u[1..])
  }

  /** The pathname is everything up to the query or fragment. */
  lemma {:induction false} UrlPathnameOf(pathname: string, tail: string)
    requires '?' !in pathname && '#' !in pathname
    requires tail == [] || tail[0] == '?' || tail[0] == '#'
    ensures UrlPathname(pathname + tail) == pathname
  {
    if pathname == [] {
      assert pathname + tail == tail;
    } else {
      assert (pathname + tail)[0] == pathname[0];
      assert (pathname + tail)[1..] == pathname[1..] + tail;
      UrlPathnameOf(pathname[1..], tail);
    }
  }

  /** `s` holds `%2520` (a `%20` whose `%` was escaped once more) at
      position `i`. */
  predicate OccursAt(s: string, i: int)
  {
    && 0 <= i && i + 5 <= |s|
    && s[i] == '%' && s[i + 1] == '2' && s[i + 2] == '5' && s[i + 3] == '2' && s[i + 4] == '0'
  }

  predicate Occurs(s: string)
  {
    exists i {:trigger OccursAt(s, i)} :: 0 <= i < |s| && OccursAt(s, i)
  }

  predicate HasPrefix(s: string, prefix: string)
  {
    |prefix| <= |s| && s[..|prefix|] == prefix
  }

  /** `s.replace(/\%2520/g, '%20')`: scanning left to right, every
      occurrence that does not overlap an earlier replaced one becomes `%20`. */
  function Unescape2520(s: string): (r: string)
    ensures |r| <= |s|
  {
    if |s| < 5 then s
    else if OccursAt(s, 0) then "%20" + Unescape2520(s[5..])
    else [s[0]] + Unescape2520(s[1..])
  }

  /** Unescaping keeps the first character. */
  lemma {:induction false} UnescapeHead(s: string)
    requires s != []
    ensures Unescape2520(s) != [] && Unescape2520(s)[0] == s[0]
  {
  }

  /** Up to the first `%` of the result, unescaping changes nothing. */
  lemma {:induction false} UnescapeAgrees(s: string, j: nat)
    requires j < |Unescape2520(s)|
    requires forall m :: 0 <= m <= j ==> Unescape2520(s)[m] != '%'
    ensures j < |s| && s[j] == Unescape2520(s)[j]
  {
    var r := Unescape2520(s);
    if |s| >= 5 && j > 0 {
      assert !OccursAt(s, 0) by { assert r[0] != '%'; }
      assert r[1..] == Unescape2520(s[1..]);
      UnescapeAgrees(s[1..], j - 1);
    }
  }

  /** Text without `%2520` passes through unchanged. */
  lemma {:induction false} UnescapeUnchanged(s: string)
    requires !Occurs(s)
    ensures Unescape2520(s) == s
  {
    if |s| >= 5 {
      assert !OccursAt(s, 0);
      forall i | 0 <= i < |s[1..]| ensures !OccursAt(s[1..], i) {
        assert !OccursAt(s, i + 1);
      }
      UnescapeUnchanged(s[1..]);
      assert s == [s[0]] + s[1..];
    }
  }

  /** No `%2520` survives: the replacement `%20` can neither be one nor
      complete one with its neighbours. */
  lemma {:induction false} UnescapeFree(s: string)
    ensures !Occurs(Unescape2520(s))
  {
    var r := Unescape2520(s);
    if |s| < 5 {
      forall i | 0 <= i < |r| ensures !OccursAt(r, i) {
        assert !OccursAt(s, i);
      }
    } else if OccursAt(s, 0) {
      var rest := Unescape2520(s[5..]);
      UnescapeFree(s[5..]);
      assert r[0] == '%' && r[1] == '2' && r[2] == '0' && r[3..] == rest;
      forall i | 0 <= i < |r| ensures !OccursAt(r, i) {
        if 3 <= i {
          assert !OccursAt(rest, i - 3);
        }
      }
    } else {
      var rest := Unescape2520(s[1..]);
      UnescapeFree(s[1..]);
      assert r[0] == s[0] && r[1..] == rest;
      if 5 <= |r| && forall m :: 1 <= m <= 4 ==> r[m] != '%' {
        UnescapeAgrees(s[1..], 0);
        UnescapeAgrees(s[1..], 1);
        UnescapeAgrees(s[1..], 2);
        UnescapeAgrees(s[1..], 3);
      }
      forall i | 0 <= i < |r| ensures !OccursAt(r, i) {
        if 1 <= i {
          assert !OccursAt(rest, i - 1);
        }
      }
    }
  }

  /** Replacing twice is replacing once. */
  lemma {:induction false} UnescapeIdempotent(s: string)
    ensures Unescape2520(Unescape2520(s)) == Unescape2520(s)
  {
    UnescapeFree(s);
    UnescapeUnchanged(Unescape2520(s));
  }

  /** A `%2520` after text holding no `%` becomes `%20`, and the scan goes
      on after it. */
  lemma {:induction false} UnescapeAt(a: string, b: string)
    requires '%' !in a
    ensures Unescape2520(a + "%2520" + b) == a + "%20" + Unescape2520(b)
  {
    var s := a + "%2520" + b;
    if a == [] {
      assert s == "%2520" + b && s[5..] == b;
    } else {
      assert s[0] == a[0] && !OccursAt(s, 0);
      assert s[1..] == a[1..] + "%2520" + b;
      UnescapeAt(a[1..], b);
      assert a == [a[0]] + a[1..];
    }
  }

  /** `s` without its leading dots. */
  function DropDots(s: string): (r: string)
    ensures |r| <= |s| && r == s[|s| - |r|..]
    ensures r == [] || r[0] != '.'
    ensures forall i :: 0 <= i < |s| - |r| ==> s[i] == '.'
  {
    if s != [] && s[0] == '.' then DropDots(s[1..]) else s
  }

  /** `s.replace(/^(\.)+/, '.')`. */
  function CollapseLeadingDots(s: string): string
  {
    if s != [] && s[0] == '.' then "." + DropDots(s) else s
  }

  /** `s.replace(/(\/)$/, '')`: one trailing slash goes, and only one. */
  function StripTrailingSlash(s: string): string
  {
    if s != [] && s[|s| - 1] == '/' then s[..|s| - 1] else s
  }

  /** The relative path a URL pathname names under the document root. */
  function RelativeRequestPath(pathname: string): string
  {
    StripTrailingSlash(CollapseLeadingDots(Unescape2520("." + pathname)))
  }

  /** Cutting text never creates a `%2520`. */
  lemma {:induction false} SliceFree(s: string, lo: int, hi: int)
    requires !Occurs(s) && 0 <= lo <= hi <= |s|
    ensures !Occurs(s[lo..hi])
  {
    var t := s[lo..hi];
    forall i | 0 <= i < |t| ensures !OccursAt(t, i) {
      assert !OccursAt(s, lo + i);
    }
  }

  /** A leading dot never completes a `%2520`. */
  lemma {:induction false} DotFree(s: string)
    ensures !Occurs("." + s) <==> !Occurs(s)
  {
    var t := "." + s;
    assert t[0] == '.' && t[1..] == s;
    if !Occurs(s) {
      forall i | 0 <= i < |t| ensures !OccursAt(t, i) {
        if 1 <= i {
          assert !OccursAt(s, i - 1);
        }
      }
    }
    if !Occurs(t) {
      SliceFree(t, 1, |t|);
      assert t[1..|t|] == s;
    }
  }

  /** The shape of the relative path: exactly one leading dot, no `%2520`. */
  lemma {:induction false} RelativeRequestPathShape(pathname: string)
    ensures var r := RelativeRequestPath(pathname);
      |r| >= 1 && r[0] == '.' && (|r| == 1 || r[1] != '.') && !Occurs(r)
  {
    var u := Unescape2520("." + pathname);
    UnescapeFree("." + pathname);
    UnescapeHead("." + pathname);
    var d := DropDots(u);
    SliceFree(u, |u| - |d|, |u|);
    assert u[|u| - |d|..|u|] == d;
    DotFree(d);
    var c := "." + d;
    assert CollapseLeadingDots(u) == c;
    SliceFree(c, 0, if c[|c| - 1] == '/' then |c| - 1 else |c|);
    assert c[..|c|] == c;
  }

  /** A plain pathname, starting with `/`, not ending in `/` and holding no
      `%2520`, is kept as it is behind the dot. */
  lemma {:induction false} RelativeRequestPathPlain(pathname: string)
    requires HasPrefix(pathname, "/") && !Occurs(pathname)
    requires |pathname| == 1 || pathname[|pathname| - 1] != '/'
    ensures RelativeRequestPath(pathname) == if |pathname| == 1 then "." else "." + pathname
  {
    var dotted := "." + pathname;
    DotFree(pathname);
    UnescapeUnchanged(dotted);
    assert dotted[1] == '/';
    assert DropDots(dotted[1..]) == dotted[1..];
    assert dotted[1..] == pathname;
    assert CollapseLeadingDots(dotted) == dotted;
  }

  /** A relative path that starts with `./` keeps its dot. */
  lemma CollapseDotSlash(s: string)
    requires |s| >= 2 && s[0] == '.' && s[1] == '/'
    ensures CollapseLeadingDots(s) == s
  {
    assert DropDots(s[1..]) == s[1..];
    assert s == "." + s[1..];
  }

  /** One trailing `/` on a plain pathname is dropped. */
  lemma {:induction false} RelativeRequestPathTrailing(pathname: string)
    requires HasPrefix(pathname, "/") && !Occurs(pathname)
    requires |pathname| > 1 && pathname[|pathname| - 1] != '/'
    ensures RelativeRequestPath(pathname + "/") == "." + pathname
  {
    var q := pathname + "/";
    forall i | 0 <= i < |q| ensures !OccursAt(q, i) {
      if i + 5 <= |pathname| {
        assert !OccursAt(pathname, i);
      }
    }
    var dotted := "." + q;
    DotFree(q);
    UnescapeUnchanged(dotted);
    assert dotted[1] == '/';
    CollapseDotSlash(dotted);
    assert dotted[..|dotted| - 1] == "." + pathname;
  }

  /** A pathname `/a%2520b` names `./a%20b`: the doubly escaped space is
      escaped once. */
  lemma {:induction false} RelativeRequestPathEscaped(a: string, b: string)
    requires '%' !in a && !Occurs(b) && (b == [] || b[|b| - 1] != '/')
    ensures RelativeRequestPath("/" + a + "%2520" + b) == "./" + a + "%20" + b
  {
    var r := "./" + a + "%20" + b;
    assert "." + ("/" + a + "%2520" + b) == ("./" + a) + "%2520" + b;
    UnescapeAt("./" + a, b);
    UnescapeUnchanged(b);
    assert Unescape2520("." + ("/" + a + "%2520" + b)) == r;
    CollapseDotSlash(r);
    assert r[|r| - 1] != '/';
  }

  /** The path a request URL names: `path.resolve(docroot, relative)`. */
  function RequestPath(cwd: string, docroot: string, url: string): (r: string)
    ensures IsAbsolute(r)
  {
    Resolve(cwd, docroot, RelativeRequestPath(UrlPathname(url)))
  }

  /** The request path is normalised, so the file system sees it as is. */
  lemma {:induction false} RequestPathIsNormal(cwd: string, docroot: string, url: string)
    ensures IsNormal(RequestPath(cwd, docroot, url))
  {
    ResolveIsNormal(cwd, docroot, RelativeRequestPath(UrlPathname(url)));
  }

  /** The site root (with or without a query) is the document root itself. */
  lemma {:induction false} RootRequest(cwd: string, docroot: string, url: string)
    requires UrlPathname(url) == "/"
    ensures RequestPath(cwd, docroot, url) == ResolveFrom(cwd, docroot)
  {
    RelativeRequestPathPlain("/");
    ResolveDot(cwd, docroot);
  }

  /** A URL whose pathname is `/` is not `/bundle.js`. */
  lemma {:induction false} RootIsNotBundle(url: string)
    requires UrlPathname(url) == "/"
    ensures url != "/bundle.js"
  {
    var r := UrlPathname(url);
    assert |r| == 1;
    if |url| > 1 {
      assert url[1] == '?' || url[1] == '#';
    }
  }

  /** A request for a plain file name, with or without a query or
      fragment, names that file directly inside the document root. */
  lemma {:induction false} RequestName(cwd: string, docroot: string, name: string, tail: string)
    requires IsName(name) && '?' !in name && '#' !in name && !Occurs("/" + name)
    requires tail == [] || tail[0] == '?' || tail[0] == '#'
    ensures RequestPath(cwd, docroot, "/" + name + tail) == Child(ResolveFrom(cwd, docroot), name)
  {
    PlainRequest(name, tail);
    RequestPathOf(cwd, docroot, "/" + name + tail, "/" + name, "./" + name);
    ResolveDotName(cwd, docroot, name);
  }

  /** The pathname and the relative path of a request for a plain name. */
  lemma PlainRequest(name: string, tail: string)
    requires IsName(name) && '?' !in name && '#' !in name && !Occurs("/" + name)
    requires tail == [] || tail[0] == '?' || tail[0] == '#'
    ensures UrlPathname("/" + name + tail) == "/" + name
    ensures RelativeRequestPath("/" + name) == "./" + name
  {
    UrlPathnameOf("/" + name, tail);
    PlainRelative(name);
  }

  lemma PlainRelative(name: string)
    requires IsName(name) && !Occurs("/" + name)
    ensures RelativeRequestPath("/" + name) == "./" + name
  {
    var pathname := "/" + name;
    assert HasPrefix(pathname, "/") by {
      assert pathname[..1] == "/";
    }
    assert pathname[|pathname| - 1] != '/' by {
      assert pathname[|pathname| - 1] == name[|name| - 1];
    }
    RelativeRequestPathPlain(pathname);
    assert "." + pathname == "./" + name;
  }

  /** The request path from the pathname and the relative path. */
  lemma RequestPathOf(cwd: string, docroot: string, url: string, pathname: string, relative: string)
    requires UrlPathname(url) == pathname && RelativeRequestPath(pathname) == relative
    ensures RequestPath(cwd, docroot, url) == Resolve(cwd, docroot, relative)
  {
  }

  /** A request for `/a%2520b`, with or without a query or fragment, names
      the file `a%20b` directly inside the document root. */
  lemma {:induction false} RequestEscapedName(cwd: string, docroot: string, a: string, b: string, tail: string)
    requires '%' !in a && '/' !in a && '?' !in a && '#' !in a
    requires !Occurs(b) && '/' !in b && '?' !in b && '#' !in b
    requires tail == [] || tail[0] == '?' || tail[0] == '#'
    ensures var name := a + "%20" + b;
      IsName(name) && RequestPath(cwd, docroot, "/" + a + "%2520" + b + tail)
                      == Child(ResolveFrom(cwd, docroot), name)
  {
    EscapedName(a, b);
    EscapedPathname(a, b, tail);
    EscapedRelative(a, b);
    RequestPathOf(cwd, docroot, "/" + a + "%2520" + b + tail, "/" + a + "%2520" + b, "./" + (a + "%20" + b));
    ResolveDotName(cwd, docroot, a + "%20" + b);
  }

  /** `a%20b` is a plain name when `a` and `b` hold no `/`. */
  lemma EscapedName(a: string, b: string)
    requires '/' !in a && '/' !in b
    ensures IsName(a + "%20" + b)
  {
    var name := a + "%20" + b;
    assert name[|a|] == '%';
    forall i | 0 <= i < |name| ensures name[i] != '/' {
      if i < |a| { assert name[i] == a[i]; }
      else if i >= |a| + 3 { assert name[i] == b[i - |a| - 3]; }
    }
  }

  /** The pathname of `/a%2520b` followed by a query or fragment. */
  lemma EscapedPathname(a: string, b: string, tail: string)
    requires '?' !in a && '#' !in a && '?' !in b && '#' !in b
    requires tail == [] || tail[0] == '?' || tail[0] == '#'
    ensures UrlPathname("/" + a + "%2520" + b + tail) == "/" + a + "%2520" + b
  {
    var pathname := "/" + a + "%2520" + b;
    forall i | 0 <= i < |pathname| ensures pathname[i] != '?' && pathname[i] != '#' {
      if 1 <= i <= |a| { assert pathname[i] == a[i - 1]; }
      else if i >= |a| + 6 { assert pathname[i] == b[i - |a| - 6]; }
    }
    UrlPathnameOf(pathname, tail);
  }

  /** The relative path of `/a%2520b`. */
  lemma EscapedRelative(a: string, b: string)
    requires '%' !in a && !Occurs(b) && '/' !in b
    ensures RelativeRequestPath("/" + a + "%2520" + b) == "./" + (a + "%20" + b)
  {
    assert b == [] || b[|b| - 1] != '/' by {
      if b != [] { assert b[|b| - 1] in b; }
    }
    assert "./" + a + "%20" + b == "./" + (a + "%20" + b);
    RelativeRequestPathEscaped(a, b);
  }
}
