/** The set of paths the bundler is told to watch, computed once at startup
    from the listing of the document root: keep the `.js`, `.html` and `.css`
    names, resolve them against the document root, drop the entry module
    and append the extra watch paths. */
module Watch {
  import opened Text
  import opened Paths

  /** `['js', 'html', 'css'].includes(name.split('.').pop())`. */
  predicate IsWatchedName(name: string)
  {
    var e := LastPiece(name, '.');
    e == "js" || e == "html" || e == "css"
  }

  /** `s.filter(p)`: the elements satisfying `p`, in order, every copy kept. */
  function Filter(s: seq<string>, p: string -> bool): (r: seq<string>)
    ensures |r| <= |s|
    ensures forall x :: x in r <==> x in s && p(x)
  {
    if s == [] then []
    else
      assert s == [s[0]] + s[1..];
      (if p(s[0]) then [s[0]] else []) + Filter(s[1..], p)
  }

  /** Filtering keeps every copy of a kept element and none of a dropped one. */
  lemma {:induction false} FilterCount(s: seq<string>, p: string -> bool, x: string)
    ensures multiset(Filter(s, p))[x] == if p(x) then multiset(s)[x] else 0
  {
    if s != [] {
      FilterCount(s[1..], p, x);
      assert s == [s[0]] + s[1..];
    }
  }

  /** `s.map(f)`. */
  function Map<T, U>(s: seq<T>, f: T -> U): (r: seq<U>)
    ensures |r| == |s| && forall i :: 0 <= i < |s| ==> r[i] == f(s[i])
  {
    seq(|s|, i requires 0 <= i < |s| => f(s[i]))
  }

  /** The paths a listing contributes, before the extra watch paths:
      `.filter(...).map(f => path.resolve(docroot, f)).filter(f => f !== entry)`. */
  function ListedPaths(cwd: string, docroot: string, entry: string, listing: seq<string>): seq<string>
  {
    Filter(Candidates(cwd, docroot, listing), p => p != entry)
  }

  /** The watch set: the listed paths followed by the (already resolved)
      extra watch paths. */
  function WatchSet(cwd: string, docroot: string, entry: string, watchers: seq<string>,
                    listing: seq<string>): seq<string>
  {
    ListedPaths(cwd, docroot, entry, listing) + watchers
  }

  /** The last `.`-piece of `name` is the dot-free `e` exactly when `name`
      is `e` or ends in `.e`. */
  lemma {:induction false} LastPieceIs(name: string, e: string)
    requires '.' !in e
    ensures LastPiece(name, '.') == e <==> name == e || HasSuffix(name, "." + e)
  {
    var t := LastPiece(name, '.');
    LastPieceSpec(name, '.');
    if t == e && |t| < |name| {
      var k := |name| - |t| - 1;
      assert name[k..] == [name[k]] + name[k + 1..];
    }
    if name == e {
      SplitWithout(name, '.');
    } else if HasSuffix(name, "." + e) {
      var a := name[..|name| - |e| - 1];
      assert name == a + ['.'] + e;
      LastPieceAppend(a, '.', e);
      SplitWithout(e, '.');
    }
  }

  /** A name is watched exactly when it is `js`, `html` or `css` itself or
      ends in `.js`, `.html` or `.css`; the comparison is case-sensitive. */
  lemma {:induction false} WatchedNameIff(name: string)
    ensures IsWatchedName(name) <==>
      || name == "js" || name == "html" || name == "css"
      || HasSuffix(name, ".js") || HasSuffix(name, ".html") || HasSuffix(name, ".css")
  {
    assert "." + "js" == ".js" && "." + "html" == ".html" && "." + "css" == ".css";
    assert '.' !in "js" && '.' !in "html" && '.' !in "css";
    LastPieceIs(name, "js");
    LastPieceIs(name, "html");
    LastPieceIs(name, "css");
  }

  /** Filtering distributes over concatenation, so it keeps the order. */
  lemma {:induction false} FilterAppend(a: seq<string>, b: seq<string>, p: string -> bool)
    ensures Filter(a + b, p) == Filter(a, p) + Filter(b, p)
  {
    if a == [] {
      assert a + b == b;
    } else {
      assert (a + b)[0] == a[0];
      assert (a + b)[1..] == a[1..] + b;
      FilterAppend(a[1..], b, p);
    }
  }

  /** Mapping distributes over concatenation. */
  lemma MapAppend<T, U>(a: seq<T>, b: seq<T>, f: T -> U)
    ensures Map(a + b, f) == Map(a, f) + Map(b, f)
  {
    assert forall i :: 0 <= i < |a + b| ==> Map(a + b, f)[i] == (Map(a, f) + Map(b, f))[i];
  }

  /** The candidates of two consecutive parts of a listing. */
  lemma CandidatesAppend(cwd: string, docroot: string, l1: seq<string>, l2: seq<string>)
    ensures Candidates(cwd, docroot, l1 + l2) == Candidates(cwd, docroot, l1) + Candidates(cwd, docroot, l2)
  {
    FilterAppend(l1, l2, IsWatchedName);
    MapAppend(Filter(l1, IsWatchedName), Filter(l2, IsWatchedName), f => Resolve(cwd, docroot, f));
  }

  /** The listing is processed in its own order: the paths contributed by
      two consecutive parts of a listing are those of the first part
      followed by those of the second. */
  lemma {:induction false} ListedPathsAppend(cwd: string, docroot: string, entry: string, l1: seq<string>, l2: seq<string>)
    ensures ListedPaths(cwd, docroot, entry, l1 + l2)
         == ListedPaths(cwd, docroot, entry, l1) + ListedPaths(cwd, docroot, entry, l2)
  {
    CandidatesAppend(cwd, docroot, l1, l2);
    FilterAppend(Candidates(cwd, docroot, l1), Candidates(cwd, docroot, l2), p => p != entry);
  }

  /** The paths before the entry is dropped: one per watched name. */
  function Candidates(cwd: string, docroot: string, listing: seq<string>): seq<string>
  {
    Map(Filter(listing, IsWatchedName), f => Resolve(cwd, docroot, f))
  }

  /** Every candidate comes from a watched name of the listing. */
  lemma CandidateSource(cwd: string, docroot: string, listing: seq<string>, x: string)
    requires x in Candidates(cwd, docroot, listing)
    ensures exists f :: f in listing && IsWatchedName(f) && Resolve(cwd, docroot, f) == x
  {
    var kept := Filter(listing, IsWatchedName);
    var candidates := Candidates(cwd, docroot, listing);
    var i :| 0 <= i < |candidates| && candidates[i] == x;
    assert kept[i] in kept && Resolve(cwd, docroot, kept[i]) == x;
  }

  /** Every watched name of the listing gives a candidate. */
  lemma CandidateTarget(cwd: string, docroot: string, listing: seq<string>, f: string)
    requires f in listing && IsWatchedName(f)
    ensures Resolve(cwd, docroot, f) in Candidates(cwd, docroot, listing)
  {
    var kept := Filter(listing, IsWatchedName);
    assert f in kept;
    var i :| 0 <= i < |kept| && kept[i] == f;
    assert Candidates(cwd, docroot, listing)[i] == Resolve(cwd, docroot, f);
  }

  lemma {:induction false} CandidatesMembers(cwd: string, docroot: string, listing: seq<string>, x: string)
    ensures x in Candidates(cwd, docroot, listing) <==>
      exists f :: f in listing && IsWatchedName(f) && Resolve(cwd, docroot, f) == x
  {
    if x in Candidates(cwd, docroot, listing) {
      CandidateSource(cwd, docroot, listing, x);
    }
    if exists f :: f in listing && IsWatchedName(f) && Resolve(cwd, docroot, f) == x {
      var f :| f in listing && IsWatchedName(f) && Resolve(cwd, docroot, f) == x;
      CandidateTarget(cwd, docroot, listing, f);
    }
  }

  /** A listed path is the resolution of a watched name of the listing and
      never the entry; every such resolution other than the entry is listed. */
  lemma {:induction false} ListedPathsMembers(cwd: string, docroot: string, entry: string, listing: seq<string>)
    ensures forall x :: x in ListedPaths(cwd, docroot, entry, listing) <==>
      x != entry && exists f :: f in listing && IsWatchedName(f) && Resolve(cwd, docroot, f) == x
  {
    forall x ensures x in ListedPaths(cwd, docroot, entry, listing) <==>
      x != entry && exists f :: f in listing && IsWatchedName(f) && Resolve(cwd, docroot, f) == x
    {
      CandidatesMembers(cwd, docroot, listing, x);
    }
  }

  /** No deduplication: the listed part has one path per watched name of the
      listing, less every copy of the entry. */
  lemma {:induction false} ListedPathsLength(cwd: string, docroot: string, entry: string, listing: seq<string>)
    ensures var candidates := Candidates(cwd, docroot, listing);
      |ListedPaths(cwd, docroot, entry, listing)| + multiset(candidates)[entry] == |candidates|
  {
    var candidates := Candidates(cwd, docroot, listing);
    var listed := ListedPaths(cwd, docroot, entry, listing);
    var drop := p => p != entry;
    assert listed == Filter(candidates, drop);
    assert multiset(listed) == multiset(candidates)[entry := 0] by {
      forall x ensures multiset(listed)[x] == multiset(candidates)[entry := 0][x] {
        FilterCount(candidates, drop, x);
      }
    }
    assert |multiset(candidates)| == |candidates|;
    assert |multiset(listed)| == |listed|;
  }

  /** What the watch set is: the listed paths, which never include the
      entry, then the extra paths unchanged and in order. */
  lemma {:induction false} WatchSetSpec(cwd: string, docroot: string, entry: string, watchers: seq<string>,
                     listing: seq<string>)
    ensures var ws := WatchSet(cwd, docroot, entry, watchers, listing);
      var listed := ListedPaths(cwd, docroot, entry, listing);
      && |ws| == |listed| + |watchers|
      && ws[..|listed|] == listed
      && ws[|listed|..] == watchers
      && entry !in listed
      && (entry in watchers ==> entry in ws)
  {
    var listed := ListedPaths(cwd, docroot, entry, listing);
    var ws := WatchSet(cwd, docroot, entry, watchers, listing);
    assert ws[..|listed|] == listed;
    assert ws[|listed|..] == watchers;
    ListedPathsMembers(cwd, docroot, entry, listing);
  }

  /** Each listed path lies directly inside the document root, when the
      listing holds plain names (as a directory listing does). */
  lemma {:induction false} ListedPathsAreChildren(cwd: string, docroot: string, entry: string, listing: seq<string>)
    requires AllNames(listing)
    ensures forall x :: x in ListedPaths(cwd, docroot, entry, listing) ==>
      exists f :: f in listing && IsWatchedName(f) && x == Child(ResolveFrom(cwd, docroot), f)
  {
    ListedPathsMembers(cwd, docroot, entry, listing);
    forall x | x in ListedPaths(cwd, docroot, entry, listing)
      ensures exists f :: f in listing && IsWatchedName(f) && x == Child(ResolveFrom(cwd, docroot), f)
    {
      var f :| f in listing && IsWatchedName(f) && Resolve(cwd, docroot, f) == x;
      var i :| 0 <= i < |listing| && listing[i] == f;
      ResolveName(cwd, docroot, f);
    }
  }
}
