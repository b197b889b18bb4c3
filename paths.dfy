/** The two pieces of Node's POSIX `path` module the server relies on:
    `path.resolve` (join the arguments onto the working directory, then
    normalise `.`, `..` and empty segments away) and the `ext` field of
    `path.parse`. */
module Paths {
  import opened Text

  predicate IsAbsolute(p: string)
  {
    |p| > 0 && p[0] == '/'
  }

  /** A segment that survives normalisation. */
  predicate IsName(seg: string)
  {
    seg != "" && seg != "." && seg != ".." && '/' !in seg
  }

  predicate AllNames(segs: seq<string>)
  {
    forall i :: 0 <= i < |segs| ==> IsName(segs[i])
  }

  predicate NoSlashes(segs: seq<string>)
  {
    forall i :: 0 <= i < |segs| ==> '/' !in segs[i]
  }

  /** Normalisation of an absolute path's segments, left to right onto
      `stack`: empty and `.` segments are dropped, `..` removes the last
      name kept so far (and is dropped at the root), any other segment is
      kept. */
  function Canon(stack: seq<string>, segs: seq<string>): seq<string>
    decreases |segs|
  {
    if segs == [] then stack
    else if segs[0] == "" || segs[0] == "." then Canon(stack, segs[1..])
    else if segs[0] == ".." then Canon(if stack == [] then [] else stack[..|stack| - 1], segs[1..])
    else Canon(stack + [segs[0]], segs[1..])
  }

  /** Normalisation leaves only names. */
  lemma {:induction false} CanonKeepsNames(stack: seq<string>, segs: seq<string>)
    requires AllNames(stack) && NoSlashes(segs)
    ensures AllNames(Canon(stack, segs))
    decreases |segs|
  {
    if segs != [] {
      var s := segs[0];
      var next := if s == "" || s == "." then stack
        else if s == ".." then (if stack == [] then [] else stack[..|stack| - 1])
        else stack + [s];
      CanonKeepsNames(next, segs[1..]);
    }
  }

  /** The segments a path normalises to. */
  lemma {:induction false} NormalNames(p: string)
    ensures AllNames(Canon([], Split(p, '/')))
  {
    SplitPiecesFree(p, '/');
    CanonKeepsNames([], Split(p, '/'));
  }

  /** The absolute path whose segments are `names`. */
  function FromNames(names: seq<string>): string
  {
    if names == [] then "/" else "/" + Join(names, '/')
  }

  /** Node's normalisation of an absolute path. */
  function Normalize(p: string): (r: string)
    ensures IsAbsolute(r)
  {
    FromNames(Canon([], Split(p, '/')))
  }

  /** The absolute path `path.resolve(p)` normalises: `p` itself when it is
      absolute, otherwise `p` under the working directory `cwd`. */
  function Absolute(cwd: string, p: string): string
  {
    if IsAbsolute(p) then p else cwd + "/" + p
  }

  /** `path.resolve(p)`. */
  function ResolveFrom(cwd: string, p: string): (r: string)
    ensures IsAbsolute(r)
  {
    Normalize(Absolute(cwd, p))
  }

  /** `path.resolve(base, p)`: an absolute `p` wins, an empty `base` is
      skipped, and otherwise `p` is taken relative to `base`. */
  function Resolve(cwd: string, base: string, p: string): (r: string)
    ensures IsAbsolute(r)
  {
    Normalize(if IsAbsolute(p) || base == "" then Absolute(cwd, p) else Absolute(cwd, base + "/" + p))
  }

  /** A normalised path, the shape every result of `path.resolve` has. */
  predicate IsNormal(p: string)
  {
    Normalize(p) == p
  }

  /** Normalising a list of names that is already clean keeps it. */
  lemma {:induction false} CanonNames(stack: seq<string>, names: seq<string>)
    requires AllNames(stack) && AllNames(names)
    ensures Canon(stack, names) == stack + names
    decreases |names|
  {
    if names != [] {
      CanonNames(stack + [names[0]], names[1..]);
      assert stack + [names[0]] + names[1..] == stack + names;
    }
  }

  /** Normalisation is a left-to-right fold: it can be done in two halves. */
  lemma {:induction false} CanonAppend(stack: seq<string>, x: seq<string>, y: seq<string>)
    requires AllNames(stack) && NoSlashes(x) && NoSlashes(y)
    ensures NoSlashes(x + y)
    ensures Canon(stack, x + y) == Canon(Canon(stack, x), y)
    decreases |x|
  {
    assert NoSlashes(x + y) by {
      forall i | 0 <= i < |x + y| ensures '/' !in (x + y)[i] {
        if i >= |x| { assert (x + y)[i] == y[i - |x|]; }
      }
    }
    if x == [] {
      assert x + y == y;
    } else {
      assert (x + y)[0] == x[0];
      assert (x + y)[1..] == x[1..] + y;
      var s := x[0];
      var next := if s == "" || s == "." then stack
        else if s == ".." then (if stack == [] then [] else stack[..|stack| - 1])
        else stack + [s];
      CanonAppend(next, x[1..], y);
    }
  }

  lemma {:induction false} JoinSnoc(names: seq<string>, name: string)
    requires |names| >= 1
    ensures Join(names + [name], '/') == Join(names, '/') + "/" + name
    decreases |names|
  {
    var all := names + [name];
    if |names| == 1 {
      assert all[1..] == [name];
    } else {
      assert all[1..] == names[1..] + [name];
      JoinSnoc(names[1..], name);
    }
  }

  /** The segments of the path built from `names`. */
  lemma {:induction false} SplitFromNames(names: seq<string>)
    requires AllNames(names)
    ensures Split(FromNames(names), '/') == if names == [] then ["", ""] else [""] + names
  {
    if names == [] {
      SplitAppend("", '/', "");
      assert "" + ['/'] + "" == "/";
    } else {
      SplitJoin(names, '/');
      SplitAppend("", '/', Join(names, '/'));
      assert "" + ['/'] + Join(names, '/') == FromNames(names);
    }
  }

  /** A path built from clean names is already normal. */
  lemma {:induction false} FromNamesIsNormal(names: seq<string>)
    requires AllNames(names)
    ensures Normalize(FromNames(names)) == FromNames(names)
  {
    var segs := Split(FromNames(names), '/');
    SplitFromNames(names);
    if names == [] {
      assert segs[1..] == [""] && segs[1..][1..] == [];
      assert Canon([], segs) == Canon([], segs[1..]);
      assert Canon([], segs[1..]) == Canon([], []);
    } else {
      assert segs[1..] == names;
      assert Canon([], segs) == Canon([], names);
      CanonNames([], names);
      assert [] + names == names;
    }
  }

  /** Every normalised path is normal: normalising twice changes nothing. */
  lemma {:induction false} NormalizeIdempotent(p: string)
    ensures IsNormal(Normalize(p))
  {
    NormalNames(p);
    FromNamesIsNormal(Canon([], Split(p, '/')));
  }

  /** Appending an empty or `.` segment does not change the normalised path. */
  lemma {:induction false} NormalizeSkip(p: string, seg: string)
    requires seg == "" || seg == "."
    ensures Normalize(p + "/" + seg) == Normalize(p)
  {
    assert p + "/" + seg == p + ['/'] + seg;
    SplitAppend(p, '/', seg);
    SplitWithout(seg, '/');
    SplitPiecesFree(p, '/');
    CanonAppend([], Split(p, '/'), [seg]);
  }

  /** Appending one name to a path descends into that name: the result is
      the child of the normalised path. */
  lemma {:induction false} NormalizeChild(p: string, name: string)
    requires IsName(name)
    ensures Normalize(p + "/" + name) == Child(Normalize(p), name)
  {
    assert p + "/" + name == p + ['/'] + name;
    SplitAppend(p, '/', name);
    SplitWithout(name, '/');
    SplitPiecesFree(p, '/');
    CanonAppend([], Split(p, '/'), [name]);
    var names := Canon([], Split(p, '/'));
    NormalNames(p);
    CanonNames(names, [name]);
    if names != [] {
      JoinSnoc(names, name);
    }
  }

  /** The path of `name` inside directory `dir`. */
  function Child(dir: string, name: string): string
  {
    if dir == "/" then "/" + name else dir + "/" + name
  }

  /** `path.resolve` returns normalised absolute paths. */
  lemma {:induction false} ResolveIsNormal(cwd: string, base: string, p: string)
    ensures IsNormal(Resolve(cwd, base, p)) && IsNormal(ResolveFrom(cwd, p))
  {
    if IsAbsolute(p) {
      NormalizeIdempotent(p);
    } else if base == "" {
      NormalizeIdempotent(cwd + "/" + p);
    } else {
      var q := base + "/" + p;
      if IsAbsolute(q) { NormalizeIdempotent(q); } else { NormalizeIdempotent(cwd + "/" + q); }
      NormalizeIdempotent(cwd + "/" + p);
    }
  }

  /** `path.resolve(base, ".")` is `path.resolve(base)`. */
  lemma {:induction false} ResolveDot(cwd: string, base: string)
    ensures Resolve(cwd, base, ".") == ResolveFrom(cwd, base)
  {
    if base == "" {
      NormalizeSkip(cwd, ".");
      NormalizeSkip(cwd, "");
      assert cwd + "/" + "" == cwd + "/";
    } else if IsAbsolute(base) {
      NormalizeSkip(base, ".");
    } else {
      assert cwd + "/" + (base + "/" + ".") == (cwd + "/" + base) + "/" + ".";
      NormalizeSkip(cwd + "/" + base, ".");
    }
  }

  /** `path.resolve(dir, name)` for a plain name is the child `name` of
      `path.resolve(dir)`. */
  lemma {:induction false} ResolveName(cwd: string, dir: string, name: string)
    requires IsName(name)
    ensures Resolve(cwd, dir, name) == Child(ResolveFrom(cwd, dir), name)
  {
    if dir == "" {
      NormalizeChild(cwd, name);
      NormalizeSkip(cwd, "");
      assert cwd + "/" + "" == cwd + "/";
    } else if IsAbsolute(dir) {
      NormalizeChild(dir, name);
    } else {
      assert cwd + "/" + (dir + "/" + name) == (cwd + "/" + dir) + "/" + name;
      NormalizeChild(cwd + "/" + dir, name);
    }
  }

  /** A relative path is resolved under the directory `path.resolve(dir)`
      normalises. */
  lemma ResolveRelative(cwd: string, dir: string, p: string)
    requires !IsAbsolute(p)
    ensures var x := if dir == "" then cwd else Absolute(cwd, dir);
      Resolve(cwd, dir, p) == Normalize(x + "/" + p) && ResolveFrom(cwd, dir) == Normalize(x)
  {
    if dir == "" {
      NormalizeSkip(cwd, "");
      assert cwd + "/" + "" == cwd + "/";
    } else if !IsAbsolute(dir) {
      assert cwd + "/" + (dir + "/" + p) == (cwd + "/" + dir) + "/" + p;
    }
  }

  /** `path.resolve(dir, "./" + name)` for a plain name is the child `name`
      of `path.resolve(dir)`: the `.` segment is dropped. */
  lemma {:induction false} ResolveDotName(cwd: string, dir: string, name: string)
    requires IsName(name)
    ensures Resolve(cwd, dir, "./" + name) == Child(ResolveFrom(cwd, dir), name)
  {
    var p := "./" + name;
    var x := if dir == "" then cwd else Absolute(cwd, dir);
    var y := x + "/" + ".";
    assert Resolve(cwd, dir, p) == Normalize(y + "/" + name) by {
      assert p[0] == '.';
      ResolveRelative(cwd, dir, p);
      assert x + "/" + p == y + "/" + name;
    }
    assert Normalize(y + "/" + name) == Child(Normalize(y), name) by {
      NormalizeChild(y, name);
    }
    assert Normalize(y) == ResolveFrom(cwd, dir) by {
      NormalizeSkip(x, ".");
      ResolveRelative(cwd, dir, p);
    }
  }

  /** `p` without its trailing slashes, as `path.parse` reads it. */
  function TrimTrailingSlashes(p: string): (r: string)
    ensures |r| <= |p| && r == p[..|r|]
  {
    if |p| > 0 && p[|p| - 1] == '/' then TrimTrailingSlashes(p[..|p| - 1]) else p
  }

  /** The `base` field of `path.parse(p)`. */
  function Basename(p: string): string
  {
    LastPiece(TrimTrailingSlashes(p), '/')
  }

  /** The extension of a file name: from its last `.` on, except that a
      name without a `.`, a name whose only `.` opens it (`.bashrc`) and the
      name `..` have none. */
  function ExtOfName(name: string): string
  {
    var tail := LastPiece(name, '.');
    if |tail| + 1 >= |name| || name == ".." then "" else "." + tail
  }

  /** The `ext` field of `path.parse(p)`. */
  function Ext(p: string): string
  {
    ExtOfName(Basename(p))
  }

  /** An extension is either empty or a `.` followed by dot-free text that
      ends the name; it is non-empty exactly when the name has a `.` after
      its first character and is not `..`. */
  lemma {:induction false} ExtOfNameSpec(name: string)
    ensures var r := ExtOfName(name);
      && (r == "" || (r[0] == '.' && '.' !in r[1..] && HasSuffix(name, r)))
      && (r != "" <==> name != ".." && exists i :: 0 < i < |name| && name[i] == '.')
  {
    var t := LastPiece(name, '.');
    LastPieceSpec(name, '.');
    var r := ExtOfName(name);
    if r != "" {
      var k := |name| - |t| - 1;
      assert name[k] == '.';
      assert r[1..] == t;
      assert name[k..] == [name[k]] + name[k + 1..];
    } else if |t| == |name| - 1 {
      forall i | 0 < i < |name| ensures name[i] != '.' {
        assert name[i] == t[i - 1];
      }
    }
  }

  /** The base name holds no `/`. */
  lemma {:induction false} BasenameNoSlash(p: string)
    ensures '/' !in Basename(p)
  {
    LastPieceSpec(TrimTrailingSlashes(p), '/');
  }

  /** The extension of a path is empty or a `.` followed by text holding
      neither `.` nor `/`. */
  lemma {:induction false} ExtShape(p: string)
    ensures var e := Ext(p);
      e == "" || (e[0] == '.' && '.' !in e[1..] && '/' !in e)
  {
    var name := Basename(p);
    BasenameNoSlash(p);
    ExtOfNameSpec(name);
    var e := Ext(p);
    if e != "" {
      assert e == name[|name| - |e|..];
      assert forall i :: 0 <= i < |e| ==> e[i] == name[|name| - |e| + i];
    }
  }
}
