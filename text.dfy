/** JavaScript's `String.prototype.split` on a single character, its inverse
    `Array.prototype.join`, and `split(..).pop()`, the last piece. */
module Text {

  /** `s.split(sep)`: the pieces between the occurrences of `sep`, in order.
      There is always at least one piece. */
  function Split(s: string, sep: char): (r: seq<string>)
    ensures |r| >= 1
  {
    if |s| == 0 then [""]
    else
      var rest := Split(s[1..], sep);
      if s[0] == sep then [""] + rest
      else [[s[0]] + rest[0]] + rest[1..]
  }

  /** No piece of a split contains the separator. */
  lemma {:induction false} SplitPiecesFree(s: string, sep: char)
    ensures forall i :: 0 <= i < |Split(s, sep)| ==> sep !in Split(s, sep)[i]
  {
    if |s| > 0 {
      SplitPiecesFree(s[1..], sep);
      var rest := Split(s[1..], sep);
      if s[0] != sep {
        assert sep !in [s[0]] + rest[0];
      }
    }
  }

  /** `parts.join(sep)`. */
  function Join(parts: seq<string>, sep: char): string
    requires |parts| >= 1
  {
    if |parts| == 1 then parts[0] else parts[0] + [sep] + Join(parts[1..], sep)
  }

  /** `s.split(sep).pop()`: the text after the last `sep`, or all of `s`. */
  function LastPiece(s: string, sep: char): string
  {
    var pieces := Split(s, sep);
    pieces[|pieces| - 1]
  }

  predicate HasSuffix(s: string, suffix: string)
  {
    |suffix| <= |s| && s[|s| - |suffix|..] == suffix
  }

  /** Joining the pieces of a split gives back the string. */
  lemma {:induction false} JoinSplit(s: string, sep: char)
    ensures Join(Split(s, sep), sep) == s
  {
    if |s| > 0 {
      JoinSplit(s[1..], sep);
      var rest := Split(s[1..], sep);
      if s[0] == sep {
        assert Split(s, sep) == [""] + rest;
        assert ([""] + rest)[1..] == rest;
        assert s == [sep] + s[1..];
      } else if |rest| == 1 {
        assert s == [s[0]] + s[1..];
      } else {
        var r := Split(s, sep);
        assert r[1..] == rest[1..];
        assert Join(rest, sep) == rest[0] + [sep] + Join(rest[1..], sep);
        assert s == [s[0]] + s[1..];
      }
    }
  }

  /** A string without `sep` splits into itself alone. */
  lemma {:induction false} SplitWithout(s: string, sep: char)
    requires sep !in s
    ensures Split(s, sep) == [s]
  {
    if |s| > 0 {
      SplitWithout(s[1..], sep);
      assert s == [s[0]] + s[1..];
    }
  }

  /** One step of a split: a separator opens a new piece, any other
      character joins the first piece. */
  lemma SplitCons(c: char, s: string, sep: char)
    ensures var rest := Split(s, sep);
      Split([c] + s, sep) == if c == sep then [""] + rest else [[c] + rest[0]] + rest[1..]
  {
    assert ([c] + s)[1..] == s;
  }

  /** The inductive step of `SplitAppend`: one more character in front. */
  lemma SplitAppendStep(c: char, a: string, sep: char, b: string)
    requires Split(a + [sep] + b, sep) == Split(a, sep) + Split(b, sep)
    ensures Split([c] + (a + [sep] + b), sep) == Split([c] + a, sep) + Split(b, sep)
  {
    SplitCons(c, a + [sep] + b, sep);
    SplitCons(c, a, sep);
    ConsPieces(if c == sep then "" else [c] + Split(a, sep)[0], c == sep, Split(a, sep), Split(b, sep));
  }

  /** The list manipulation behind `SplitAppendStep`, on plain lists. */
  lemma ConsPieces(h: string, opens: bool, ra: seq<string>, rb: seq<string>)
    requires |ra| >= 1
    ensures opens ==> [h] + (ra + rb) == ([h] + ra) + rb
    ensures !opens ==> (ra + rb)[0] == ra[0] && [h] + (ra + rb)[1..] == ([h] + ra[1..]) + rb
  {
    if !opens {
      assert (ra + rb)[1..] == ra[1..] + rb;
    }
  }

  /** Splitting distributes over a separator: the pieces of `a + sep + b`
      are the pieces of `a` followed by the pieces of `b`. */
  lemma {:induction false} SplitAppend(a: string, sep: char, b: string)
    ensures Split(a + [sep] + b, sep) == Split(a, sep) + Split(b, sep)
  {
    if |a| == 0 {
      assert a + [sep] + b == [sep] + b;
      SplitCons(sep, b, sep);
    } else {
      SplitAppend(a[1..], sep, b);
      SplitAppendStep(a[0], a[1..], sep, b);
      assert a + [sep] + b == [a[0]] + (a[1..] + [sep] + b);
      assert a == [a[0]] + a[1..];
    }
  }

  /** Splitting a join of separator-free pieces gives back the pieces. */
  lemma {:induction false} SplitJoin(parts: seq<string>, sep: char)
    requires |parts| >= 1
    requires forall i :: 0 <= i < |parts| ==> sep !in parts[i]
    ensures Split(Join(parts, sep), sep) == parts
  {
    if |parts| == 1 {
      SplitWithout(parts[0], sep);
    } else {
      SplitJoin(parts[1..], sep);
      SplitAppend(parts[0], sep, Join(parts[1..], sep));
      SplitWithout(parts[0], sep);
      assert parts == [parts[0]] + parts[1..];
    }
  }

  /** The index of the last `sep` in `s`, or -1 when there is none. */
  function LastIndex(s: string, sep: char): (k: int)
    ensures -1 <= k < |s|
    ensures k >= 0 ==> s[k] == sep
    ensures forall j :: k < j < |s| ==> s[j] != sep
  {
    if |s| == 0 then -1
    else if s[|s| - 1] == sep then |s| - 1
    else LastIndex(s[..|s| - 1], sep)
  }

  /** The last piece is the suffix of `s` after its last `sep`: it holds no
      `sep`, and either it is all of `s` (no `sep` in `s`) or a `sep` stands
      right before it. */
  lemma {:induction false} LastPieceSpec(s: string, sep: char)
    ensures var t := LastPiece(s, sep);
      && HasSuffix(s, t)
      && sep !in t
      && (|t| == |s| <==> sep !in s)
      && (|t| < |s| ==> s[|s| - |t| - 1] == sep)
  {
    var k := LastIndex(s, sep);
    if k < 0 {
      SplitWithout(s, sep);
    } else {
      var b := s[k + 1..];
      assert s == s[..k] + [sep] + b;
      LastPieceAppend(s[..k], sep, b);
      assert sep !in b;
      SplitWithout(b, sep);
      assert s[k] in s;
    }
  }

  /** The last piece of `a + sep + b` is the last piece of `b`. */
  lemma {:induction false} LastPieceAppend(a: string, sep: char, b: string)
    ensures LastPiece(a + [sep] + b, sep) == LastPiece(b, sep)
  {
    SplitAppend(a, sep, b);
  }
}
