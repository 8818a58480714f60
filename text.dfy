/** The two System.String operations the client builds its strings with:
    String.Split(char) and String.Join(string, string[]). */
module Text {
  import opened Results

  /** Number of occurrences of `c` in `s`. */
  function Count(s: string, c: char): (n: nat)
    ensures n <= |s|
    ensures n == 0 <==> c !in s
  {
    if s == [] then 0 else (if s[0] == c then 1 else 0) + Count(s[1..], c)
  }

  /** String.Split(c): the fields between occurrences of `c`, empty fields
      included, so there is always one field more than there are separators. */
  function Split(s: string, c: char): (fields: seq<string>)
    ensures |fields| == Count(s, c) + 1
    ensures forall i :: 0 <= i < |fields| ==> c !in fields[i]
  {
    if s == [] then [[]]
    else
      var rest := Split(s[1..], c);
      if s[0] == c then [[]] + rest
      else [[s[0]] + rest[0]] + rest[1..]
  }

  /** String.Join(sep, parts): the parts with `sep` between neighbours, so the
      text starts with the first part. */
  function Join(parts: seq<string>, sep: string): (s: string)
    ensures |parts| == 0 ==> s == []
    ensures |parts| >= 1 ==> parts[0] <= s
  {
    if |parts| == 0 then []
    else if |parts| == 1 then parts[0]
    else parts[0] + sep + Join(parts[1..], sep)
  }

  /** The text before the first `c`, or all of `s` when it has none. */
  function Before(s: string, c: char): (r: string)
    ensures c !in r
    ensures r <= s
    ensures |r| < |s| ==> s[|r|] == c
  {
    if s == [] || s[0] == c then [] else [s[0]] + Before(s[1..], c)
  }

  /** The text after the first `c` (empty when `s` has none). */
  function After(s: string, c: char): (r: string)
    ensures |r| < |s|  || s == []
  {
    if s == [] then []
    else if s[0] == c then s[1..]
    else After(s[1..], c)
  }

  lemma {:induction false} BeforeAfter(s: string, c: char)
    requires c in s
    ensures s == Before(s, c) + [c] + After(s, c)
  {
    if s[0] != c {
      BeforeAfter(s[1..], c);
    }
  }

  lemma {:induction false} SplitNoSeparator(s: string, c: char)
    requires c !in s
    ensures Split(s, c) == [s]
  {
    if s != [] {
      SplitNoSeparator(s[1..], c);
      assert [s[0]] + s[1..] == s;
    }
  }

  /** Splitting `a + [c] + b` with `c` not in `a` yields `a` first, then the fields of `b`. */
  lemma {:induction false} SplitAtSeparator(a: string, c: char, b: string)
    requires c !in a
    ensures Split(a + [c] + b, c) == [a] + Split(b, c)
  {
    var s := a + [c] + b;
    if a == [] {
      assert s[0] == c && s[1..] == b;
    } else {
      assert s[0] == a[0] && s[1..] == a[1..] + [c] + b;
      SplitAtSeparator(a[1..], c, b);
      var rest := Split(s[1..], c);
      assert rest[0] == a[1..] && rest[1..] == Split(b, c);
      assert [a[0]] + a[1..] == a;
    }
  }

  /** The first field is the text before the first separator; the rest are
      the fields of what follows it. */
  lemma {:induction false} SplitFirst(s: string, c: char)
    ensures Split(s, c)[0] == Before(s, c)
    ensures c in s ==> Split(s, c)[1..] == Split(After(s, c), c)
  {
    if c in s {
      BeforeAfter(s, c);
      SplitAtSeparator(Before(s, c), c, After(s, c));
    } else {
      SplitNoSeparator(s, c);
      BeforeNoSeparator(s, c);
    }
  }

  lemma {:induction false} BeforeNoSeparator(s: string, c: char)
    requires c !in s
    ensures Before(s, c) == s
  {
    if s != [] {
      BeforeNoSeparator(s[1..], c);
    }
  }

  /** Splitting a join on a one-character separator that no part contains gives back the parts. */
  lemma {:induction false} SplitJoin(parts: seq<string>, c: char)
    requires |parts| >= 1
    requires forall i :: 0 <= i < |parts| ==> c !in parts[i]
    ensures Split(Join(parts, [c]), c) == parts
  {
    if |parts| == 1 {
      SplitNoSeparator(parts[0], c);
    } else {
      SplitJoin(parts[1..], c);
      SplitAtSeparator(parts[0], c, Join(parts[1..], [c]));
    }
  }

  /** Joining the fields of a split on the same character gives back the text. */
  lemma {:induction false} JoinSplit(s: string, c: char)
    ensures Join(Split(s, c), [c]) == s
    decreases |s|
  {
    if c in s {
      BeforeAfter(s, c);
      SplitFirst(s, c);
      JoinSplit(After(s, c), c);
      var fields := Split(s, c);
      assert fields == [fields[0]] + fields[1..];
    } else {
      SplitNoSeparator(s, c);
    }
  }

  // ---- brace nesting ----

  /** Scans `s` left to right from nesting depth `depth`: `{` goes one level in,
      `}` one level out; None when a `}` has no `{` open before it. */
  function Nest(s: string, depth: nat): Option<nat>
  {
    if s == [] then Some(depth)
    else if s[0] == '{' then Nest(s[1..], depth + 1)
    else if s[0] == '}' then (if depth == 0 then None else Nest(s[1..], depth - 1))
    else Nest(s[1..], depth)
  }

  /** Every `{` has a matching `}` after it and every `}` a matching `{` before it:
      as many of each, and no prefix with more `}` than `{`. */
  predicate Balanced(s: string)
  {
    && Count(s, '{') == Count(s, '}')
    && forall k :: 0 <= k <= |s| ==> Count(s[..k], '}') <= Count(s[..k], '{')
  }

  lemma {:induction false} CountFront(c: char, s: string, x: char)
    ensures Count([c] + s, x) == (if c == x then 1 else 0) + Count(s, x)
  {
    assert ([c] + s)[1..] == s;
  }

  /** The scan succeeds exactly when no prefix closes more braces than are open,
      and then ends at the starting depth plus the surplus of `{` over `}`. */
  lemma {:induction false} NestCounts(s: string, depth: nat)
    ensures Nest(s, depth).Some? <==>
      forall k :: 0 <= k <= |s| ==> Count(s[..k], '}') <= depth + Count(s[..k], '{')
    ensures Nest(s, depth).Some? ==> Nest(s, depth).value + Count(s, '}') == depth + Count(s, '{')
  {
    if s != [] {
      var c, r := s[0], s[1..];
      assert s == [c] + r;
      var d' := if c == '{' then depth + 1 else if c == '}' then depth - 1 else depth;
      var open, close := (if c == '{' then 1 else 0), (if c == '}' then 1 else 0);
      CountFront(c, r, '{');
      CountFront(c, r, '}');
      forall k | 1 <= k <= |s|
        ensures Count(s[..k], '{') == open + Count(r[..k - 1], '{')
        ensures Count(s[..k], '}') == close + Count(r[..k - 1], '}')
      {
        assert s[..k] == [c] + r[..k - 1];
        CountFront(c, r[..k - 1], '{');
        CountFront(c, r[..k - 1], '}');
      }
      assert s[..0] == [];
      if c == '}' && depth == 0 {
        assert s[..1] == [c];
        assert Count(s[..1], '}') == 1 && Count(s[..1], '{') == 0;
      } else {
        NestCounts(r, d');
        assert Nest(s, depth) == Nest(r, d');
        if Nest(r, d').Some? {
          forall k | 0 <= k <= |s|
            ensures Count(s[..k], '}') <= depth + Count(s[..k], '{')
          {
            if k >= 1 {
              assert Count(r[..k - 1], '}') <= d' + Count(r[..k - 1], '{');
            }
          }
        } else {
          var j :| 0 <= j <= |r| && Count(r[..j], '}') > d' + Count(r[..j], '{');
          assert Count(s[..j + 1], '}') > depth + Count(s[..j + 1], '{');
        }
      }
    }
  }

  /** A scan from depth 0 that ends at depth 0 means the braces are balanced, and conversely. */
  lemma NestBalanced(s: string)
    ensures Nest(s, 0) == Some(0) <==> Balanced(s)
  {
    NestCounts(s, 0);
    assert s[..|s|] == s;
  }

  /** Scanning `a + b` is scanning `a`, then scanning `b` from where `a` left off. */
  lemma {:induction false} NestAppend(a: string, b: string, depth: nat)
    ensures Nest(a + b, depth) == if Nest(a, depth).None? then None else Nest(b, Nest(a, depth).value)
  {
    if a == [] {
      assert a + b == b;
    } else {
      assert (a + b)[0] == a[0];
      assert (a + b)[1..] == a[1..] + b;
      if !(a[0] == '}' && depth == 0) {
        var d' := if a[0] == '{' then depth + 1 else if a[0] == '}' then depth - 1 else depth;
        NestAppend(a[1..], b, d');
      }
    }
  }

  /** Text without braces leaves the depth where it was. */
  lemma {:induction false} NestPlain(s: string, depth: nat)
    requires '{' !in s && '}' !in s
    ensures Nest(s, depth) == Some(depth)
  {
    if s != [] {
      NestPlain(s[1..], depth);
    }
  }

  lemma NestOpen(depth: nat)
    ensures Nest("{", depth) == Some(depth + 1)
  {
  }

  lemma NestClose(depth: nat)
    ensures Nest("}", depth + 1) == Some(depth)
  {
  }

  /** Five pieces whose scans chain from depth 0 back to depth 0 nest properly together. */
  lemma NestLines(a: string, b: string, c: string, d: string, e: string, i: nat, j: nat, k: nat, l: nat)
    requires Nest(a, 0) == Some(i) && Nest(b, i) == Some(j) && Nest(c, j) == Some(k)
    requires Nest(d, k) == Some(l) && Nest(e, l) == Some(0)
    ensures Nest(a + b + c + d + e, 0) == Some(0)
  {
    NestStep(a, b, 0, i, j);
    NestStep(a + b, c, 0, j, k);
    NestStep(a + b + c, d, 0, k, l);
    NestStep(a + b + c + d, e, 0, l, 0);
  }

  /** The scans of two pieces chain into the scan of the two together. */
  lemma NestStep(a: string, b: string, d: nat, e: nat, f: nat)
    requires Nest(a, d) == Some(e) && Nest(b, e) == Some(f)
    ensures Nest(a + b, d) == Some(f)
  {
    NestAppend(a, b, d);
  }
}
