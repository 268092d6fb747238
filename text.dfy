/** String operations with the meaning of the JavaScript built-ins the client calls:
    `trim`, `startsWith`, `endsWith`, `includes`, `indexOf`, `split`, `join`,
    ASCII `toLowerCase`/`toUpperCase`, UTF-16 `length`, and `||` on strings. */
module Text {

  datatype Option<+T> = None | Some(value: T)

  /** `s || fallback` for a string `s`: the empty string is falsy. */
  function OrElse(s: string, fallback: string): string
  {
    if s != "" then s else fallback
  }

  /** The characters JavaScript's `trim` removes: WhiteSpace and LineTerminator of ECMA-262. */
  predicate IsJsSpace(c: char)
  {
    || c == '\t' || c == '\n' || c == '\U{000B}' || c == '\U{000C}' || c == '\r' || c == ' '
    || c == '\U{00A0}' || c == '\U{1680}' || ('\U{2000}' <= c <= '\U{200A}')
    || c == '\U{2028}' || c == '\U{2029}' || c == '\U{202F}' || c == '\U{205F}'
    || c == '\U{3000}' || c == '\U{FEFF}'
  }

  ghost predicate AllSpace(s: string)
  {
    forall i :: 0 <= i < |s| ==> IsJsSpace(s[i])
  }

  /** Neither end of `s` is a space: what `trim` returns. */
  predicate Trimmed(s: string)
  {
    s == "" || (!IsJsSpace(s[0]) && !IsJsSpace(s[|s| - 1]))
  }

  function TrimStart(s: string): (r: string)
    ensures |r| <= |s| && r == s[|s| - |r|..]
    ensures AllSpace(s[..|s| - |r|])
    ensures r == "" || !IsJsSpace(r[0])
    decreases |s|
  {
    if |s| > 0 && IsJsSpace(s[0]) then TrimStart(s[1..]) else s
  }

  function TrimEnd(s: string): (r: string)
    ensures |r| <= |s| && r == s[..|r|]
    ensures AllSpace(s[|r|..])
    ensures r == "" || !IsJsSpace(r[|r| - 1])
    decreases |s|
  {
    if |s| > 0 && IsJsSpace(s[|s| - 1]) then TrimEnd(s[..|s| - 1]) else s
  }

  /** `s.trim()`: `s` is the result with a run of spaces on either side. */
  function Trim(s: string): (r: string)
    ensures Trimmed(r) && |r| <= |s|
  {
    var a := TrimStart(s);
    var r := TrimEnd(a);
    TrimShape(a, r);
    r
  }

  /** `a` does not start with a space and `r`, a prefix of `a`, does not end with one. */
  lemma TrimShape(a: string, r: string)
    requires a == "" || !IsJsSpace(a[0])
    requires |r| <= |a| && r == a[..|r|] && (r == "" || !IsJsSpace(r[|r| - 1]))
    ensures Trimmed(r)
  {
    assert r != [] ==> r[0] == a[0];
  }

  /** Spaces in front are all that `TrimStart` removes. */
  lemma {:induction false} TrimStartSkips(pre: string, y: string)
    requires AllSpace(pre)
    ensures TrimStart(pre + y) == TrimStart(y)
    decreases |pre|
  {
    if pre == "" {
      assert pre + y == y;
    } else {
      assert (pre + y)[0] == pre[0];
      assert (pre + y)[1..] == pre[1..] + y;
      TrimStartSkips(pre[1..], y);
    }
  }

  lemma {:induction false} TrimEndSkips(y: string, post: string)
    requires AllSpace(post)
    ensures TrimEnd(y + post) == TrimEnd(y)
    decreases |post|
  {
    if post == "" {
      assert y + post == y;
    } else {
      var s := y + post;
      assert s[|s| - 1] == post[|post| - 1];
      assert s[..|s| - 1] == y + post[..|post| - 1];
      TrimEndSkips(y, post[..|post| - 1]);
    }
  }

  /** Trimming removes exactly the padding of a string whose content is already trimmed. */
  lemma TrimPadded(pre: string, x: string, post: string)
    requires AllSpace(pre) && AllSpace(post) && Trimmed(x)
    ensures Trim(pre + x + post) == x
  {
    assert pre + x + post == pre + (x + post);
    TrimStartSkips(pre, x + post);
    if x == "" {
      assert x + post == post;
      TrimStartSkips(post, "");
      assert post + "" == post;
    } else {
      assert (x + post)[0] == x[0];
      TrimEndSkips(x, post);
    }
  }

  lemma TrimOfTrimmed(x: string)
    requires Trimmed(x)
    ensures Trim(x) == x
  {
    TrimPadded("", x, "");
    assert "" + x + "" == x;
  }

  predicate StartsWith(s: string, prefix: string)
  {
    |prefix| <= |s| && s[..|prefix|] == prefix
  }

  predicate EndsWith(s: string, suffix: string)
  {
    |suffix| <= |s| && s[|s| - |suffix|..] == suffix
  }

  /** `t` occurs in `s` at position `j`. */
  predicate OccursAt(s: string, t: string, j: int)
  {
    0 <= j && j + |t| <= |s| && s[j..j + |t|] == t
  }

  /** The first occurrence of `t` in `s` at or after `k` (`s.indexOf(t, k)`, None for -1). */
  function IndexOfFrom(s: string, t: string, k: nat): (r: Option<nat>)
    ensures r.Some? ==> k <= r.value && OccursAt(s, t, r.value)
    ensures r.Some? ==> forall j :: k <= j < r.value ==> !OccursAt(s, t, j)
    ensures r.None? ==> forall j :: k <= j ==> !OccursAt(s, t, j)
    decreases |s| - k
  {
    if k + |t| > |s| then None
    else if s[k..k + |t|] == t then Some(k)
    else IndexOfFrom(s, t, k + 1)
  }

  function IndexOf(s: string, t: string): Option<nat>
  {
    IndexOfFrom(s, t, 0)
  }

  /** `s.includes(t)`. */
  predicate Contains(s: string, t: string)
  {
    IndexOf(s, t).Some?
  }

  /** `s.split(sep)` for a non-empty separator: the pieces between non-overlapping
      occurrences of `sep`, scanning from the left. */
  function Split(s: string, sep: string): (parts: seq<string>)
    requires sep != ""
    ensures |parts| >= 1
    decreases |s|
  {
    match IndexOf(s, sep)
    case None => [s]
    case Some(i) => [s[..i]] + Split(s[i + |sep|..], sep)
  }

  /** The split has one piece exactly when the separator does not occur. */
  lemma SplitOne(s: string, sep: string)
    requires sep != ""
    ensures |Split(s, sep)| == 1 <==> !Contains(s, sep)
  {
    if Contains(s, sep) {
      var i := IndexOf(s, sep).value;
      assert Split(s, sep) == [s[..i]] + Split(s[i + |sep|..], sep);
    }
  }

  /** `xs.join(sep)`. */
  function Join(xs: seq<string>, sep: string): string
    decreases |xs|
  {
    if |xs| == 0 then ""
    else if |xs| == 1 then xs[0]
    else xs[0] + sep + Join(xs[1..], sep)
  }

  function Last<T>(xs: seq<T>): T
    requires |xs| > 0
  {
    xs[|xs| - 1]
  }

  /** Splitting and joining again with the same separator gives back the string. */
  lemma {:induction false} JoinSplit(s: string, sep: string)
    requires sep != ""
    ensures Join(Split(s, sep), sep) == s
    decreases |s|
  {
    var r := IndexOf(s, sep);
    if r.Some? {
      var i := r.value;
      var rest := s[i + |sep|..];
      var tail := Split(rest, sep);
      JoinSplit(rest, sep);
      assert Split(s, sep) == [s[..i]] + tail;
      JoinCons(s[..i], tail, sep);
      assert s[i..i + |sep|] == sep;
      Slices(s, i, i + |sep|);
    }
  }

  lemma Slices(s: string, i: nat, j: nat)
    requires i <= j <= |s|
    ensures s == s[..i] + s[i..j] + s[j..]
  {
    var t := s[..i] + s[i..j] + s[j..];
    assert |t| == |s|;
    forall k | 0 <= k < |s| ensures t[k] == s[k] {
      if k < i {
      } else if k < j {
        assert t[k] == s[i..j][k - i];
      } else {
        assert t[k] == s[j..][k - j];
      }
    }
  }

  lemma JoinCons(x: string, xs: seq<string>, sep: string)
    requires |xs| > 0
    ensures Join([x] + xs, sep) == x + sep + Join(xs, sep)
  {
    assert ([x] + xs)[1..] == xs;
  }

  lemma IndexOfAbsent(s: string, c: char)
    requires c !in s
    ensures IndexOf(s, [c]) == None
  {
    forall j | 0 <= j && j + 1 <= |s| ensures !OccursAt(s, [c], j) {
      assert s[j..j + 1][0] == s[j];
    }
  }

  lemma IndexOfFirst(a: string, c: char, b: string)
    requires c !in a
    ensures IndexOf(a + [c] + b, [c]) == Some(|a|)
  {
    var s := a + [c] + b;
    assert OccursAt(s, [c], |a|);
    forall j | 0 <= j < |a| ensures !OccursAt(s, [c], j) {
      assert s[j..j + 1][0] == a[j];
    }
  }

  /** Splitting on a one-character separator that the first piece does not contain. */
  lemma SplitAtFirst(a: string, c: char, b: string)
    requires c !in a
    ensures Split(a + [c] + b, [c]) == [a] + Split(b, [c])
  {
    var s := a + [c] + b;
    IndexOfFirst(a, c, b);
    assert s[..|a|] == a;
    assert s[|a| + 1..] == b;
  }

  /** `(a + c + b).split(c)[0]` is `a` when `a` has no `c`. */
  lemma HeadAt(a: string, c: char, b: string)
    requires c !in a
    ensures Head(a + [c] + b, c) == a
  {
    SplitAtFirst(a, c, b);
  }

  lemma SplitWithout(a: string, c: char)
    requires c !in a
    ensures Split(a, [c]) == [a]
  {
    IndexOfAbsent(a, c);
  }

  /** No piece of a split on a one-character separator contains the separator. */
  lemma {:induction false} SplitPiecesFree(s: string, c: char)
    ensures forall k :: 0 <= k < |Split(s, [c])| ==> c !in Split(s, [c])[k]
    decreases |s|
  {
    match IndexOf(s, [c])
    case None =>
      if c in s {
        var j :| 0 <= j < |s| && s[j] == c;
        assert OccursAt(s, [c], j);
      }
    case Some(i) =>
      var rest := s[i + 1..];
      SplitPiecesFree(rest, c);
      var parts := Split(s, [c]);
      assert parts == [s[..i]] + Split(rest, [c]);
      if c in s[..i] {
        var j :| 0 <= j < i && s[..i][j] == c;
        assert OccursAt(s, [c], j);
      }
      forall k | 0 <= k < |parts| ensures c !in parts[k] {
        if k > 0 { assert parts[k] == Split(rest, [c])[k - 1]; }
      }
  }

  /** An occurrence at `i` with none before it is the first one. */
  lemma IndexOfAt(s: string, t: string, i: nat)
    requires OccursAt(s, t, i)
    requires forall j :: 0 <= j < i ==> !OccursAt(s, t, j)
    ensures IndexOf(s, t) == Some(i)
  {
  }

  /** A one-character occurrence is the character itself. */
  lemma OccursChar(s: string, c: char, j: nat)
    requires j < |s|
    ensures OccursAt(s, [c], j) <==> s[j] == c
  {
    assert s[j..j + 1] == [s[j]];
  }

  /** The first piece of a split on `c` is the prefix of `s` up to its first `c`. */
  lemma HeadShape(s: string, c: char)
    ensures var r := Split(s, [c])[0];
      |r| <= |s| && r == s[..|r|] && (|r| < |s| ==> s[|r|] == c)
  {
    match IndexOf(s, [c])
    case None =>
      assert Split(s, [c]) == [s];
    case Some(i) =>
      assert Split(s, [c])[0] == s[..i];
      OccursChar(s, c, i);
  }

  /** `s.split(c)[0]`: the part of `s` before its first `c`, or all of it. */
  function Head(s: string, c: char): (r: string)
    ensures |r| <= |s| && r == s[..|r|] && c !in r
    ensures |r| < |s| ==> s[|r|] == c
    ensures c !in s ==> r == s
  {
    SplitPiecesFree(s, c);
    HeadShape(s, c);
    if c !in s then SplitWithout(s, c); Split(s, [c])[0] else Split(s, [c])[0]
  }

  lemma LastCons<T>(x: T, xs: seq<T>)
    requires |xs| > 0
    ensures Last([x] + xs) == Last(xs)
  {
  }

  /** Cuts `a` at its first `c`. */
  lemma {:induction false} FirstSep(a: string, c: char) returns (a1: string, a2: string)
    requires c in a
    ensures c !in a1 && a == a1 + [c] + a2
    decreases |a|
  {
    if a[0] == c {
      a1, a2 := "", a[1..];
      assert a == [a[0]] + a[1..];
    } else {
      assert c in a[1..] by {
        var k :| 0 <= k < |a| && a[k] == c;
        assert a[1..][k - 1] == c;
      }
      var b1, b2 := FirstSep(a[1..], c);
      a1, a2 := [a[0]] + b1, b2;
      assert a == [a[0]] + a[1..];
    }
  }

  /** Appending a tail without the separator only lengthens the last piece. */
  lemma {:induction false} SplitAppendFree(a: string, x: string, c: char)
    requires c !in x
    ensures Last(Split(a + x, [c])) == Last(Split(a, [c])) + x
    decreases |a|
  {
    if c !in a {
      SplitWithout(a, c);
      SplitWithout(a + x, c);
    } else {
      var a1, a2 := FirstSep(a, c);
      assert a + x == a1 + [c] + (a2 + x);
      SplitAtFirst(a1, c, a2);
      SplitAtFirst(a1, c, a2 + x);
      SplitAppendFree(a2, x, c);
      LastCons(a1, Split(a2, [c]));
      LastCons(a1, Split(a2 + x, [c]));
    }
  }

  /** The last piece of a split ends the string after the last separator. */
  lemma {:induction false} LastAfterSep(p: string, c: char, s: string)
    requires c !in s
    ensures Last(Split(p + [c] + s, [c])) == s
    decreases |p|
  {
    if c !in p {
      SplitAtFirst(p, c, s);
      SplitWithout(s, c);
    } else {
      var p1, p2 := FirstSep(p, c);
      assert p + [c] + s == p1 + [c] + (p2 + [c] + s);
      SplitAtFirst(p1, c, p2 + [c] + s);
      LastAfterSep(p2, c, s);
      LastCons(p1, Split(p2 + [c] + s, [c]));
    }
  }

  /** `s.includes(c)` for one character is membership. */
  lemma ContainsChar(s: string, c: char)
    ensures Contains(s, [c]) <==> c in s
  {
    if c in s {
      var j :| 0 <= j < |s| && s[j] == c;
      OccursChar(s, c, j);
    } else {
      IndexOfAbsent(s, c);
    }
  }

  /** The last piece of a split is a suffix of the string. */
  lemma {:induction false} LastPieceSuffix(s: string, c: char)
    ensures var l := Last(Split(s, [c])); |l| <= |s| && l == s[|s| - |l|..]
    decreases |s|
  {
    if c !in s {
      SplitWithout(s, c);
    } else {
      var a1, a2 := FirstSep(s, c);
      SplitAtFirst(a1, c, a2);
      LastCons(a1, Split(a2, [c]));
      LastPieceSuffix(a2, c);
      SuffixOfAppend(a1 + [c], a2, |Last(Split(a2, [c]))|);
    }
  }

  lemma SuffixOfAppend(p: string, q: string, n: nat)
    requires n <= |q|
    ensures (p + q)[|p + q| - n..] == q[|q| - n..]
  {
    var s := p + q;
    var a, b := s[|s| - n..], q[|q| - n..];
    forall k | 0 <= k < n ensures a[k] == b[k] {
      assert a[k] == s[|s| - n + k];
    }
  }

  /** Each string of `xs` with `pad` in front. */
  function Prefixed(pad: string, xs: seq<string>): (r: seq<string>)
    ensures |r| == |xs| && forall k :: 0 <= k < |xs| ==> r[k] == pad + xs[k]
  {
    if xs == [] then [] else [pad + xs[0]] + Prefixed(pad, xs[1..])
  }

  /** Splitting on `c` a join with separator `c + pad` (as `", "` split on `","`) cuts at
      every separator, leaving `pad` in front of every piece but the first. */
  lemma {:induction false} SplitJoinPadded(q: string, xs: seq<string>, c: char, pad: string)
    requires |xs| > 0 && c !in q && c !in pad
    requires forall k :: 0 <= k < |xs| ==> c !in xs[k]
    ensures Split(q + Join(xs, [c] + pad), [c]) == [q + xs[0]] + Prefixed(pad, xs[1..])
    decreases |xs|
  {
    if |xs| == 1 {
      assert q + Join(xs, [c] + pad) == q + xs[0];
      SplitWithout(q + xs[0], c);
    } else {
      var tail := Join(xs[1..], [c] + pad);
      assert q + Join(xs, [c] + pad) == (q + xs[0]) + [c] + (pad + tail);
      SplitAtFirst(q + xs[0], c, pad + tail);
      SplitJoinPadded(pad, xs[1..], c, pad);
      assert xs[1..][1..] == xs[2..];
      assert Prefixed(pad, xs[1..]) == [pad + xs[1]] + Prefixed(pad, xs[2..]);
    }
  }

  /** Joining pieces free of a one-character separator and splitting again is the identity. */
  lemma {:induction false} SplitJoin(xs: seq<string>, c: char)
    requires |xs| > 0 && forall k :: 0 <= k < |xs| ==> c !in xs[k]
    ensures Split(Join(xs, [c]), [c]) == xs
    decreases |xs|
  {
    if |xs| == 1 {
      SplitWithout(xs[0], c);
    } else {
      var rest := xs[1..];
      assert [xs[0]] + rest == xs;
      JoinCons(xs[0], rest, [c]);
      SplitAtFirst(xs[0], c, Join(rest, [c]));
      SplitJoin(rest, c);
    }
  }

  /** ASCII `toLowerCase` of one character. */
  function LowerChar(c: char): char
  {
    if 'A' <= c <= 'Z' then (c as int + 32) as char else c
  }

  function UpperChar(c: char): char
  {
    if 'a' <= c <= 'z' then (c as int - 32) as char else c
  }

  function ToLower(s: string): (r: string)
    ensures |r| == |s| && forall i :: 0 <= i < |s| ==> r[i] == LowerChar(s[i])
  {
    if s == "" then "" else [LowerChar(s[0])] + ToLower(s[1..])
  }

  function ToUpper(s: string): (r: string)
    ensures |r| == |s| && forall i :: 0 <= i < |s| ==> r[i] == UpperChar(s[i])
  {
    if s == "" then "" else [UpperChar(s[0])] + ToUpper(s[1..])
  }

  /** JavaScript's `s.length`: characters outside the Basic Multilingual Plane are two UTF-16 units. */
  function Utf16Length(s: string): (n: nat)
    ensures |s| <= n <= 2 * |s|
    ensures n == |s| <==> forall k :: 0 <= k < |s| ==> s[k] as int <= 0xFFFF
    ensures n == 2 * |s| <==> forall k :: 0 <= k < |s| ==> s[k] as int > 0xFFFF
  {
    if s == "" then 0
    else
      assert forall k :: 1 <= k < |s| ==> s[k] == s[1..][k - 1];
      (if s[0] as int > 0xFFFF then 2 else 1) + Utf16Length(s[1..])
  }
}
