/**
  The handful of Go `strings` and `fmt` operations that the redirector's
  decision logic is built from, over `string` (a sequence of characters).
  Go compares and slices strings by UTF-8 byte; since UTF-8 preserves the
  order of code points, `LexLess` below agrees with Go's `<` on strings.
 */
module GoStrings {

  /** `pat` occurs in `s` starting at index `i`. */
  predicate OccursAt(s: string, pat: string, i: int)
  {
    0 <= i && i + |pat| <= |s| && s[i..i + |pat|] == pat
  }

  lemma OccursAtTail(s: string, pat: string, i: int)
    requires |s| > 0 && i >= 1
    ensures OccursAt(s, pat, i) <==> OccursAt(s[1..], pat, i - 1)
  {
    if i + |pat| <= |s| {
      var u, v := s[i..i + |pat|], s[1..][i - 1..i - 1 + |pat|];
      forall k | 0 <= k < |pat| ensures u[k] == v[k] {
        assert u[k] == s[i + k] && v[k] == s[1..][i - 1 + k];
      }
      assert u == v;
    }
  }

  /** strings.Index: the index of the first occurrence of `pat` in `s`, or -1. */
  function Index(s: string, pat: string): (r: int)
    ensures -1 <= r <= |s|
    ensures r == -1 ==> forall i :: !OccursAt(s, pat, i)
    ensures r >= 0 ==> OccursAt(s, pat, r) && forall i :: 0 <= i < r ==> !OccursAt(s, pat, i)
    decreases |s|
  {
    if |s| < |pat| then -1
    else if s[..|pat|] == pat then 0
    else
      var k := Index(s[1..], pat);
      assert forall i :: 1 <= i ==> (OccursAt(s, pat, i) <==> OccursAt(s[1..], pat, i - 1)) by {
        forall i | 1 <= i ensures OccursAt(s, pat, i) <==> OccursAt(s[1..], pat, i - 1) {
          OccursAtTail(s, pat, i);
        }
      }
      if k == -1 then -1 else k + 1
  }

  /** The first occurrence is unique: any occurrence with none before it is the one Index finds. */
  lemma IndexIsFirst(s: string, pat: string, k: int)
    requires OccursAt(s, pat, k)
    requires forall i :: 0 <= i < k ==> !OccursAt(s, pat, i)
    ensures Index(s, pat) == k
  {
  }

  /** strings.Contains */
  function Contains(s: string, pat: string): (b: bool)
    ensures b <==> exists i :: OccursAt(s, pat, i)
  {
    Index(s, pat) >= 0
  }

  /** A one-character pattern occurs exactly where that character stands. */
  lemma OccursAtChar(s: string, c: char, i: int)
    ensures OccursAt(s, [c], i) <==> 0 <= i < |s| && s[i] == c
  {
    if 0 <= i < |s| {
      assert s[i..i + 1] == [s[i]];
    }
  }

  lemma ContainsChar(s: string, c: char)
    ensures Contains(s, [c]) <==> c in s
  {
    if c in s {
      var i :| 0 <= i < |s| && s[i] == c;
      OccursAtChar(s, c, i);
    }
    if Contains(s, [c]) {
      var i :| OccursAt(s, [c], i);
      OccursAtChar(s, c, i);
    }
  }

  /** A pattern whose first character is absent from `s` does not occur in it. */
  lemma AbsentFirstChar(s: string, pat: string)
    requires pat != [] && pat[0] !in s
    ensures !Contains(s, pat)
  {
    forall i ensures !OccursAt(s, pat, i) {
      if 0 <= i && i + |pat| <= |s| {
        assert s[i..i + |pat|][0] == s[i];
      }
    }
  }

  /**
    strings.SplitN(s, sep, 2) for a non-empty `sep`: `[s]` when `sep` does not
    occur, otherwise the text before and after the first occurrence of `sep`.
   */
  function SplitN2(s: string, sep: string): (r: seq<string>)
    requires sep != []
    ensures |r| == 1 <==> !Contains(s, sep)
    ensures |r| == 1 ==> r[0] == s
    ensures |r| == 2 ==> s == r[0] + sep + r[1] && OccursAt(s, sep, |r[0]|)
    ensures |r| == 2 ==> forall i :: 0 <= i < |r[0]| ==> !OccursAt(s, sep, i)
    ensures 1 <= |r| <= 2
  {
    var k := Index(s, sep);
    if k < 0 then [s]
    else
      assert s == s[..k] + sep + s[k + |sep|..] by {
        assert s[k..k + |sep|] == sep;
      }
      [s[..k], s[k + |sep|..]]
  }

  /** strings.Count for a one-character substring: how often `c` occurs in `s`. */
  function Count(s: string, c: char): (n: nat)
    ensures n == 0 <==> c !in s
    ensures n <= |s|
  {
    if s == [] then 0
    else (if s[0] == c then 1 else 0) + Count(s[1..], c)
  }

  lemma CountConcat(a: string, b: string, c: char)
    ensures Count(a + b, c) == Count(a, c) + Count(b, c)
  {
    if a != [] {
      assert (a + b)[1..] == a[1..] + b;
      CountConcat(a[1..], b, c);
    } else {
      assert a + b == b;
    }
  }

  /**
    strings.Split(s, sep) for a one-character separator: the fields between
    successive occurrences of `sep`.
   */
  function Split(s: string, sep: char): (r: seq<string>)
    ensures |r| == Count(s, sep) + 1
    ensures forall k :: 0 <= k < |r| ==> sep !in r[k]
    decreases |s|
  {
    var k := Index(s, [sep]);
    if k < 0 then
      ContainsChar(s, sep);
      [s]
    else
      OccursAtChar(s, sep, k);
      assert s == s[..k] + [sep] + s[k + 1..];
      CountConcat(s[..k] + [sep], s[k + 1..], sep);
      CountConcat(s[..k], [sep], sep);
      assert sep !in s[..k] by {
        forall j | 0 <= j < k ensures s[j] != sep {
          OccursAtChar(s, sep, j);
        }
      }
      [s[..k]] + Split(s[k + 1..], sep)
  }

  /** strings.Join with a one-character separator: the fields with `sep` between each two. */
  function Join(fields: seq<string>, sep: char): string
  {
    if |fields| == 0 then ""
    else if |fields| == 1 then fields[0]
    else fields[0] + [sep] + Join(fields[1..], sep)
  }

  /** Joining a field in front of at least one more field puts the separator between them. */
  lemma JoinCons(head: string, tail: seq<string>, sep: char)
    requires |tail| >= 1
    ensures Join([head] + tail, sep) == head + [sep] + Join(tail, sep)
  {
    assert ([head] + tail)[0] == head && ([head] + tail)[1..] == tail;
  }

  /** At the first separator, Split gives the text before it, then the split of the text after it. */
  lemma SplitAtFirst(s: string, sep: char, k: int)
    requires 0 <= k < |s| && s[k] == sep && sep !in s[..k]
    ensures Split(s, sep) == [s[..k]] + Split(s[k + 1..], sep)
  {
    OccursAtChar(s, sep, k);
    forall j | 0 <= j < k ensures !OccursAt(s, [sep], j) {
      OccursAtChar(s, sep, j);
      assert s[..k][j] == s[j];
    }
    IndexIsFirst(s, [sep], k);
  }

  /** Split loses nothing: joining its fields with the separator gives the text back. */
  lemma {:induction false} SplitJoin(s: string, sep: char)
    ensures Join(Split(s, sep), sep) == s
    decreases |s|
  {
    var k := Index(s, [sep]);
    if k >= 0 {
      OccursAtChar(s, sep, k);
      assert sep !in s[..k] by {
        forall j | 0 <= j < k ensures s[..k][j] != sep {
          OccursAtChar(s, sep, j);
        }
      }
      var head, rest := s[..k], s[k + 1..];
      SplitAtFirst(s, sep, k);
      JoinCons(head, Split(rest, sep), sep);
      SplitJoin(rest, sep);
      assert s == head + [sep] + rest;
    } else {
      ContainsChar(s, sep);
    }
  }


  /** strings.HasPrefix */
  predicate HasPrefix(s: string, prefix: string)
  {
    |prefix| <= |s| && s[..|prefix|] == prefix
  }

  /** strings.TrimPrefix: removes one leading `prefix`, if present. */
  function TrimPrefix(s: string, prefix: string): (r: string)
    ensures HasPrefix(s, prefix) ==> prefix + r == s
    ensures !HasPrefix(s, prefix) ==> r == s
  {
    if HasPrefix(s, prefix) then s[|prefix|..] else s
  }

  /** strings.HasSuffix */
  predicate HasSuffix(s: string, suffix: string)
  {
    |suffix| <= |s| && s[|s| - |suffix|..] == suffix
  }

  /** strings.TrimSuffix: removes one trailing `suffix`, if present. */
  function TrimSuffix(s: string, suffix: string): (r: string)
    ensures HasSuffix(s, suffix) ==> r + suffix == s
    ensures !HasSuffix(s, suffix) ==> r == s
  {
    if HasSuffix(s, suffix) then s[..|s| - |suffix|] else s
  }

  /**
    strings.ReplaceAll(s, token, repl) for a non-empty `token`: every occurrence of
    `token`, scanning left to right without overlap, replaced by `repl`.
   */
  function ReplaceAll(s: string, token: string, repl: string): (r: string)
    requires token != []
    ensures repl == token ==> r == s
    decreases |s|
  {
    if |s| < |token| then s
    else if s[..|token|] == token then
      assert repl == token ==> s == repl + s[|token|..];
      repl + ReplaceAll(s[|token|..], token, repl)
    else
      assert s == [s[0]] + s[1..];
      [s[0]] + ReplaceAll(s[1..], token, repl)
  }

  /** Text free of `token` comes through ReplaceAll unchanged. */
  lemma {:induction false} ReplaceAllAbsent(s: string, token: string, repl: string)
    requires token != []
    requires !Contains(s, token)
    ensures ReplaceAll(s, token, repl) == s
    decreases |s|
  {
    if |s| >= |token| {
      assert !OccursAt(s, token, 0);
      forall i ensures !OccursAt(s[1..], token, i) {
        if i >= 0 { OccursAtTail(s, token, i + 1); }
      }
      ReplaceAllAbsent(s[1..], token, repl);
      assert s == [s[0]] + s[1..];
    }
  }

  /**
    Replacing in `p + q`, where no occurrence of `token` starts inside `p`, leaves
    `p` as it is and replaces in `q`.
   */
  lemma {:induction false} ReplaceAllSkipsPrefix(p: string, q: string, token: string, repl: string)
    requires token != []
    requires forall i :: 0 <= i < |p| ==> !OccursAt(p + q, token, i)
    ensures ReplaceAll(p + q, token, repl) == p + ReplaceAll(q, token, repl)
    decreases |p|
  {
    if p != [] {
      var s := p + q;
      assert !OccursAt(s, token, 0);
      if |s| < |token| {
        ReplaceAllAbsent(q, token, repl);
      } else {
        assert s[1..] == p[1..] + q;
        forall i | 0 <= i < |p[1..]| ensures !OccursAt(p[1..] + q, token, i) {
          OccursAtTail(s, token, i + 1);
        }
        ReplaceAllSkipsPrefix(p[1..], q, token, repl);
        assert p == [p[0]] + p[1..];
      }
    } else {
      assert p + q == q;
    }
  }

  /**
    The first occurrence of `token`, with none starting before it, is replaced,
    and the scan goes on after it: one step of ReplaceAll.
   */
  lemma ReplaceAllAt(p: string, q: string, token: string, repl: string)
    requires token != []
    requires forall i :: 0 <= i < |p| ==> !OccursAt(p + token + q, token, i)
    ensures ReplaceAll(p + token + q, token, repl) == p + repl + ReplaceAll(q, token, repl)
  {
    assert p + token + q == p + (token + q);
    ReplaceAllSkipsPrefix(p, token + q, token, repl);
    assert (token + q)[..|token|] == token && (token + q)[|token|..] == q;
  }

  /**
    A single occurrence of `token`, with none starting before it and none in
    the text after it, is replaced and nothing else changes.
   */
  lemma ReplaceAllOnce(p: string, q: string, token: string, repl: string)
    requires token != []
    requires forall i :: 0 <= i < |p| ==> !OccursAt(p + token + q, token, i)
    requires !Contains(q, token)
    ensures ReplaceAll(p + token + q, token, repl) == p + repl + q
  {
    ReplaceAllAt(p, q, token, repl);
    ReplaceAllAbsent(q, token, repl);
  }

  /** ASCII case folding of one character (the model of strings.ToLower). */
  function LowerChar(c: char): char
  {
    if 'A' <= c <= 'Z' then (c as int + 32) as char else c
  }

  /** strings.ToLower, restricted to ASCII case folding. */
  function ToLower(s: string): (r: string)
    ensures |r| == |s|
    ensures forall i :: 0 <= i < |s| ==> r[i] == LowerChar(s[i])
  {
    seq(|s|, i requires 0 <= i < |s| => LowerChar(s[i]))
  }

  /** Go's `<` on strings: lexicographic order, a proper prefix coming first. */
  predicate LexLess(a: string, b: string)
    decreases |a|
  {
    if a == [] then b != []
    else if b == [] then false
    else if a[0] != b[0] then a[0] < b[0]
    else LexLess(a[1..], b[1..])
  }

  lemma {:induction false} LexLessIrreflexive(a: string)
    ensures !LexLess(a, a)
    decreases |a|
  {
    if a != [] { LexLessIrreflexive(a[1..]); }
  }

  lemma {:induction false} LexLessTransitive(a: string, b: string, c: string)
    requires LexLess(a, b) && LexLess(b, c)
    ensures LexLess(a, c)
    decreases |a|
  {
    if a != [] && b != [] && c != [] && a[0] == b[0] == c[0] {
      LexLessTransitive(a[1..], b[1..], c[1..]);
    }
  }

  lemma {:induction false} LexLessTotal(a: string, b: string)
    ensures a == b || LexLess(a, b) || LexLess(b, a)
    decreases |a|
  {
    if a != [] && b != [] && a[0] == b[0] {
      LexLessTotal(a[1..], b[1..]);
      if a[1..] == b[1..] {
        assert a == [a[0]] + a[1..] && b == [b[0]] + b[1..];
      }
    }
  }

  /** A decimal digit character. */
  predicate IsDigit(c: char)
  {
    '0' <= c <= '9'
  }

  /** fmt's `%d` for a non-negative integer. */
  function FormatDecimal(n: nat): (r: string)
    ensures |r| >= 1
    ensures forall i :: 0 <= i < |r| ==> IsDigit(r[i])
  {
    if n < 10 then [('0' as int + n) as char]
    else FormatDecimal(n / 10) + [('0' as int + n % 10) as char]
  }

  /** The value of a string of decimal digits. */
  function ParseDecimal(s: string): nat
    requires forall i :: 0 <= i < |s| ==> IsDigit(s[i])
  {
    if s == [] then 0
    else
      assert IsDigit(s[|s| - 1]);
      10 * ParseDecimal(s[..|s| - 1]) + (s[|s| - 1] as int - '0' as int)
  }

  /** Reading back what `%d` printed gives the number printed. */
  lemma {:induction false} DecimalRoundTrip(n: nat)
    ensures ParseDecimal(FormatDecimal(n)) == n
  {
    if n >= 10 {
      var s := FormatDecimal(n);
      assert s[..|s| - 1] == FormatDecimal(n / 10);
      DecimalRoundTrip(n / 10);
    }
  }
}
