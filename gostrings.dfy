/** The functions of Go's `strings` package that the core relies on, as verified
    functions over `string` (a Dafny `seq<char>`; one character per position). */
module GoStrings {

  /** `p` occurs in `s` starting at index `j`. */
  predicate OccursAt(s: string, p: string, j: int) {
    0 <= j && j + |p| <= |s| && s[j..j + |p|] == p
  }

  /** The first index `>= i` at which `p` occurs in `s`, or -1. */
  function IndexFrom(s: string, p: string, i: nat): (r: int)
    requires i <= |s|
    ensures r == -1 || (i <= r <= |s| && OccursAt(s, p, r))
    ensures r == -1 ==> forall j :: i <= j <= |s| ==> !OccursAt(s, p, j)
    ensures r >= 0 ==> forall j :: i <= j < r ==> !OccursAt(s, p, j)
    decreases |s| - i
  {
    if OccursAt(s, p, i) then i
    else if i == |s| then -1
    else IndexFrom(s, p, i + 1)
  }

  /** strings.Index: the first occurrence of `p` in `s`, or -1 when there is none. */
  function Index(s: string, p: string): (r: int)
    ensures -1 <= r <= |s|
    ensures r == -1 <==> forall j :: 0 <= j <= |s| ==> !OccursAt(s, p, j)
    ensures r >= 0 ==> OccursAt(s, p, r) && forall j :: 0 <= j < r ==> !OccursAt(s, p, j)
  {
    IndexFrom(s, p, 0)
  }

  /** strings.Contains. */
  predicate Contains(s: string, p: string) {
    Index(s, p) >= 0
  }

  lemma ContainsIff(s: string, p: string)
    ensures Contains(s, p) <==> exists j :: OccursAt(s, p, j)
  {
    if !Contains(s, p) {
      forall j ensures !OccursAt(s, p, j) {
        if 0 <= j <= |s| {
        }
      }
    }
  }

  /** An occurrence in a suffix is an occurrence in the whole string, shifted. */
  lemma OccursInSuffix(s: string, p: string, k: nat, j: int)
    requires k <= |s|
    ensures OccursAt(s[k..], p, j) <==> (0 <= j && OccursAt(s, p, k + j))
  {
    if 0 <= j && j + |p| <= |s| - k {
      assert s[k..][j..j + |p|] == s[k + j..k + j + |p|];
    }
  }

  /** The first occurrence of `p` at or after `k`, as Go computes it with
      `strings.Index(s[k:], p) + k`. */
  lemma IndexInSuffix(s: string, p: string, k: nat)
    requires k <= |s|
    ensures var r := Index(s[k..], p);
      (r == -1 <==> forall j :: k <= j <= |s| ==> !OccursAt(s, p, j)) &&
      (r >= 0 ==> OccursAt(s, p, k + r) && forall j :: k <= j < k + r ==> !OccursAt(s, p, j))
  {
    var r := Index(s[k..], p);
    forall j | k <= j <= |s|
      ensures OccursAt(s, p, j) <==> OccursAt(s[k..], p, j - k)
    {
      OccursInSuffix(s, p, k, j - k);
    }
    if r >= 0 {
      OccursInSuffix(s, p, k, r);
    }
  }

  lemma OccursAtSingle(s: string, c: char, j: int)
    ensures OccursAt(s, [c], j) <==> (0 <= j < |s| && s[j] == c)
  {
    if 0 <= j < |s| {
      assert s[j..j + 1] == [s[j]];
    }
  }

  // ---------------------------------------------------------------------------
  // White space, strings.TrimSpace and strings.Fields
  // ---------------------------------------------------------------------------

  /** unicode.IsSpace: the Latin-1 spaces plus the other code points with the
      Unicode White_Space property. */
  predicate IsSpace(c: char) {
    c == '\t' || c == '\n' || c == '\U{0B}' || c == '\U{0C}' || c == '\r' || c == ' ' ||
    c == '\U{85}' || c == '\U{A0}' || c == '\U{1680}' ||
    ('\U{2000}' <= c <= '\U{200A}') || c == '\U{2028}' || c == '\U{2029}' ||
    c == '\U{202F}' || c == '\U{205F}' || c == '\U{3000}'
  }

  predicate AllSpace(s: string) {
    forall k :: 0 <= k < |s| ==> IsSpace(s[k])
  }

  predicate NoSpace(s: string) {
    forall k :: 0 <= k < |s| ==> !IsSpace(s[k])
  }

  /** Number of white-space characters at the front of `s`. */
  function LeadingSpaces(s: string): (n: nat)
    ensures n <= |s|
    ensures AllSpace(s[..n])
    ensures n < |s| ==> !IsSpace(s[n])
  {
    if s == [] || !IsSpace(s[0]) then 0 else 1 + LeadingSpaces(s[1..])
  }

  /** Number of white-space characters at the end of `s`. */
  function TrailingSpaces(s: string): (n: nat)
    ensures n <= |s|
    ensures AllSpace(s[|s| - n..])
    ensures n < |s| ==> !IsSpace(s[|s| - n - 1])
  {
    if s == [] || !IsSpace(s[|s| - 1]) then 0 else 1 + TrailingSpaces(s[..|s| - 1])
  }

  /** Number of non-space characters at the front of `s`. */
  function WordLength(s: string): (n: nat)
    ensures n <= |s|
    ensures NoSpace(s[..n])
    ensures n < |s| ==> IsSpace(s[n])
  {
    if s == [] || IsSpace(s[0]) then 0 else 1 + WordLength(s[1..])
  }

  /** strings.TrimLeftFunc(s, unicode.IsSpace). */
  function TrimLeft(s: string): (r: string)
    ensures |r| <= |s| && r == s[|s| - |r|..] && AllSpace(s[..|s| - |r|])
    ensures r == [] || !IsSpace(r[0])
  {
    s[LeadingSpaces(s)..]
  }

  /** strings.TrimRightFunc(s, unicode.IsSpace). */
  function TrimRight(s: string): (r: string)
    ensures |r| <= |s| && r == s[..|r|] && AllSpace(s[|r|..])
    ensures r == [] || !IsSpace(r[|r| - 1])
  {
    s[..|s| - TrailingSpaces(s)]
  }

  /** strings.TrimSpace: `s` without its leading and trailing white space. */
  function TrimSpace(s: string): (r: string)
    ensures r == [] <==> AllSpace(s)
    ensures r != [] ==> !IsSpace(r[0]) && !IsSpace(r[|r| - 1])
    ensures LeadingSpaces(s) + |r| <= |s| && r == s[LeadingSpaces(s)..LeadingSpaces(s) + |r|]
    ensures AllSpace(s[..LeadingSpaces(s)]) && AllSpace(s[LeadingSpaces(s) + |r|..])
  {
    var n := LeadingSpaces(s);
    var t := s[n..];
    var u := TrimRight(t);
    TrimSpaceSlice(s, n, t, u);
    u
  }

  /** The slices TrimSpace's contract speaks of: `s` is white space up to `n`,
      then `t`, and `u` is `t` without its trailing white space. */
  lemma TrimSpaceSlice(s: string, n: nat, t: string, u: string)
    requires n <= |s| && t == s[n..] && AllSpace(s[..n]) && (n < |s| ==> !IsSpace(s[n]))
    requires |u| <= |t| && u == t[..|u|] && AllSpace(t[|u|..])
    ensures n + |u| <= |s| && u == s[n..n + |u|]
    ensures AllSpace(s[n + |u|..])
    ensures u == [] <==> AllSpace(s)
    ensures u != [] ==> !IsSpace(u[0])
  {
    assert s[n + |u|..] == t[|u|..];
    if u == [] {
      // All of `t` is white space, so the leading run already reaches the end.
      assert s[..n] == s;
    } else {
      assert u[0] == t[0] == s[n];
    }
  }

  lemma {:induction false} TrimLeftDropsSpace(a: string, y: string)
    requires AllSpace(a)
    ensures TrimLeft(a + y) == TrimLeft(y)
    decreases |a|
  {
    if a != [] {
      assert (a + y)[0] == a[0];
      assert (a + y)[1..] == a[1..] + y;
      TrimLeftDropsSpace(a[1..], y);
      assert LeadingSpaces(a + y) == 1 + LeadingSpaces(a[1..] + y);
      assert (a + y)[1 + LeadingSpaces(a[1..] + y)..] == (a[1..] + y)[LeadingSpaces(a[1..] + y)..];
    } else {
      assert a + y == y;
    }
  }

  lemma {:induction false} TrimRightDropsSpace(y: string, b: string)
    requires AllSpace(b)
    ensures TrimRight(y + b) == TrimRight(y)
    decreases |b|
  {
    if b != [] {
      var b' := b[..|b| - 1];
      assert (y + b)[|y + b| - 1] == b[|b| - 1];
      assert (y + b)[..|y + b| - 1] == y + b';
      TrimRightDropsSpace(y, b');
      assert TrailingSpaces(y + b) == 1 + TrailingSpaces(y + b');
      assert (y + b)[..|y + b| - TrailingSpaces(y + b)] == (y + b')[..|y + b'| - TrailingSpaces(y + b')];
    } else {
      assert y + b == y;
    }
  }

  lemma {:induction false} TrimLeftKeepsTail(x: string, b: string)
    requires !AllSpace(x)
    ensures TrimLeft(x + b) == TrimLeft(x) + b
    decreases |x|
  {
    assert x != [];
    assert (x + b)[0] == x[0];
    if IsSpace(x[0]) {
      assert (x + b)[1..] == x[1..] + b;
      assert !AllSpace(x[1..]) by {
        var k :| 0 <= k < |x| && !IsSpace(x[k]);
        assert x[1..][k - 1] == x[k];
      }
      TrimLeftKeepsTail(x[1..], b);
    }
  }

  /** Surrounding white space never changes what TrimSpace returns. */
  lemma TrimSpaceIgnoresPadding(a: string, x: string, b: string)
    requires AllSpace(a) && AllSpace(b)
    ensures TrimSpace(a + x + b) == TrimSpace(x)
  {
    assert a + x + b == a + (x + b);
    TrimLeftDropsSpace(a, x + b);
    if AllSpace(x) {
      assert AllSpace(x + b) by {
        forall k | 0 <= k < |x + b| ensures IsSpace((x + b)[k]) {
          if k < |x| { assert (x + b)[k] == x[k]; } else { assert (x + b)[k] == b[k - |x|]; }
        }
      }
    } else {
      TrimLeftKeepsTail(x, b);
      TrimRightDropsSpace(TrimLeft(x), b);
    }
  }

  lemma TrimSpaceIdempotent(s: string)
    ensures TrimSpace(TrimSpace(s)) == TrimSpace(s)
  {
    var r := TrimSpace(s);
    if r != [] {
      assert LeadingSpaces(r) == 0;
      assert TrailingSpaces(r) == 0;
      assert r[0..] == r && r[..|r|] == r;
    }
  }

  /** strings.Fields: the maximal runs of non-space characters, in order. */
  function Fields(s: string): (r: seq<string>)
    ensures forall i :: 0 <= i < |r| ==> r[i] != [] && NoSpace(r[i])
    decreases |s|
  {
    var t := TrimLeft(s);
    if t == [] then []
    else
      var n := WordLength(t);
      [t[..n]] + Fields(t[n..])
  }

  /** Join(ws, sep) == strings.Join(ws, string(sep)). */
  function Join(ws: seq<string>, sep: char): string {
    if ws == [] then []
    else if |ws| == 1 then ws[0]
    else ws[0] + [sep] + Join(ws[1..], sep)
  }

  /** A string of white space has no fields. */
  lemma FieldsOfSpace(s: string)
    requires AllSpace(s)
    ensures Fields(s) == []
  {
  }

  /** A word followed by white space (or nothing) is the first field. */
  lemma FieldsOfWordThen(w: string, rest: string)
    requires w != [] && NoSpace(w)
    requires rest == [] || IsSpace(rest[0])
    ensures Fields(w + rest) == [w] + Fields(rest)
  {
    var s := w + rest;
    assert s[0] == w[0];
    assert LeadingSpaces(s) == 0;
    assert s[..|w|] == w;
    WordLengthOfWord(w, s);
    assert s[0..] == s;
    assert s[0..|w|] == w;
    assert s[|w|..] == rest;
  }

  /** A leading space does not change the fields. */
  lemma FieldsAfterSpace(c: char, t: string)
    requires IsSpace(c)
    ensures Fields([c] + t) == Fields(t)
  {
    TrimLeftAfterSpace(c, t);
  }

  lemma TrimLeftAfterSpace(c: char, t: string)
    requires IsSpace(c)
    ensures TrimLeft([c] + t) == TrimLeft(t)
  {
    var s := [c] + t;
    assert s[1..] == t;
    assert LeadingSpaces(s) == 1 + LeadingSpaces(t);
    assert s[1 + LeadingSpaces(t)..] == t[LeadingSpaces(t)..];
  }

  /** Splitting single-space-joined words gives the words back. */
  lemma {:induction false} FieldsOfJoin(ws: seq<string>)
    requires forall i :: 0 <= i < |ws| ==> ws[i] != [] && NoSpace(ws[i])
    ensures Fields(Join(ws, ' ')) == ws
  {
    if ws == [] {
    } else if |ws| == 1 {
      FieldsOfWordThen(ws[0], []);
      assert ws[0] + [] == ws[0];
    } else {
      var rest := Join(ws[1..], ' ');
      assert Join(ws, ' ') == ws[0] + ([' '] + rest);
      FieldsOfWordThen(ws[0], [' '] + rest);
      FieldsAfterSpace(' ', rest);
      FieldsOfJoin(ws[1..]);
      assert [ws[0]] + ws[1..] == ws;
    }
  }

  lemma {:induction false} WordLengthOfWord(w: string, s: string)
    requires w != [] && NoSpace(w) && |w| <= |s| && s[..|w|] == w
    requires |w| < |s| ==> IsSpace(s[|w|])
    ensures WordLength(s) == |w|
    decreases |w|
  {
    assert s[0] == w[0];
    if |w| > 1 {
      assert s[1..][..|w| - 1] == w[1..];
      WordLengthOfWord(w[1..], s[1..]);
    } else if |s| > 1 {
      assert s[1..][0] == s[1];
    }
  }

  // ---------------------------------------------------------------------------
  // strings.Split with a one-character separator
  // ---------------------------------------------------------------------------

  /** strings.Split(s, string(sep)): the pieces between separators, in order
      (a string without the separator is one piece; "" gives [""]). */
  function Split(s: string, sep: char): (r: seq<string>)
    ensures |r| >= 1
    ensures forall i :: 0 <= i < |r| ==> sep !in r[i]
  {
    if s == [] then [[]]
    else
      var rest := Split(s[1..], sep);
      if s[0] == sep then [[]] + rest
      else [[s[0]] + rest[0]] + rest[1..]
  }

  /** A string without the separator is a single piece. */
  lemma {:induction false} SplitWithoutSeparator(s: string, sep: char)
    requires sep !in s
    ensures Split(s, sep) == [s]
  {
    if s != [] {
      SplitWithoutSeparator(s[1..], sep);
      assert [s[0]] + s[1..] == s;
    }
  }

  /** Joining the pieces with the separator restores the string. */
  lemma {:induction false} JoinSplit(s: string, sep: char)
    ensures Join(Split(s, sep), sep) == s
  {
    if s != [] {
      var rest := Split(s[1..], sep);
      JoinSplit(s[1..], sep);
      if s[0] == sep {
        assert ([[]] + rest)[1..] == rest;
      } else {
        var r := [[s[0]] + rest[0]] + rest[1..];
        if |rest| == 1 {
          assert Join(r, sep) == [s[0]] + rest[0];
        } else {
          assert r[1..] == rest[1..];
          assert Join(rest, sep) == rest[0] + [sep] + Join(rest[1..], sep);
        }
      }
    }
  }

  /** Splitting separator-free pieces joined by the separator gives them back. */
  lemma {:induction false} SplitJoin(ps: seq<string>, sep: char)
    requires |ps| >= 1
    requires forall i :: 0 <= i < |ps| ==> sep !in ps[i]
    ensures Split(Join(ps, sep), sep) == ps
    decreases |Join(ps, sep)|
  {
    var p := ps[0];
    if p == [] {
      if |ps| > 1 {
        var rest := Join(ps[1..], sep);
        assert Join(ps, sep) == [sep] + rest;
        assert ([sep] + rest)[1..] == rest;
        SplitJoin(ps[1..], sep);
        assert [[]] + ps[1..] == ps;
      }
    } else {
      var ps' := [p[1..]] + ps[1..];
      assert forall i :: 0 <= i < |ps'| ==> sep !in ps'[i] by {
        assert forall c :: c in p[1..] ==> c in p;
      }
      var s := Join(ps, sep);
      assert p[0] != sep by { assert p[0] in p; }
      if |ps| == 1 {
        assert s == [p[0]] + Join(ps', sep);
      } else {
        assert ps'[1..] == ps[1..];
        assert s == [p[0]] + Join(ps', sep);
      }
      assert s[1..] == Join(ps', sep);
      SplitJoin(ps', sep);
      assert [p[0]] + p[1..] == p;
      assert [p] + ps[1..] == ps;
    }
  }
}
