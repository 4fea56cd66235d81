/**
 * Models of the Go standard-library calls the vocabulary tool relies on:
 * `strings.TrimSpace`, `strings.Split`, `strings.SplitN(s, sep, 2)`,
 * `regexp.Split` on a one-character class, `strings.Join`,
 * `strings.TrimSuffix`, `filepath.Base` (Unix separator), `strconv.Atoi`
 * and the `%d` verb of `fmt.Sprintf`.
 *
 * Strings are sequences of Unicode code points; the source works on UTF-8
 * bytes, which agrees on valid UTF-8 text.
 */
module GoStrings {

  // ---------------------------------------------------------------------
  // Whitespace and trimming
  // ---------------------------------------------------------------------

  /** `unicode.IsSpace`: the code points `strings.TrimSpace` strips. */
  predicate IsSpace(c: char) {
    || c == '\t' || c == '\n' || c == '\U{000B}' || c == '\U{000C}' || c == '\r' || c == ' '
    || c == '\U{0085}' || c == '\U{00A0}' || c == '\U{1680}'
    || ('\U{2000}' <= c <= '\U{200A}')
    || c == '\U{2028}' || c == '\U{2029}' || c == '\U{202F}' || c == '\U{205F}' || c == '\U{3000}'
  }

  /** No leading and no trailing white space. */
  predicate Trimmed(s: string) {
    s == [] || (!IsSpace(s[0]) && !IsSpace(s[|s| - 1]))
  }

  /** Every character of `s` is white space. */
  predicate AllSpace(s: string) {
    forall k :: 0 <= k < |s| ==> IsSpace(s[k])
  }

  /** `s` contains no character of `cs`. */
  predicate Avoids(s: string, cs: set<char>) {
    forall k :: 0 <= k < |s| ==> s[k] !in cs
  }

  /** A concatenation avoids a set of characters exactly when both parts do. */
  lemma AvoidsConcat(a: string, b: string, cs: set<char>)
    ensures Avoids(a + b, cs) <==> Avoids(a, cs) && Avoids(b, cs)
  {
    if Avoids(a, cs) && Avoids(b, cs) {
      forall k | 0 <= k < |a + b| ensures (a + b)[k] !in cs {
        if k >= |a| {
          assert (a + b)[k] == b[k - |a|];
        }
      }
    }
    if Avoids(a + b, cs) {
      forall k | 0 <= k < |a| ensures a[k] !in cs {
        assert (a + b)[k] == a[k];
      }
      forall k | 0 <= k < |b| ensures b[k] !in cs {
        assert (a + b)[|a| + k] == b[k];
      }
    }
  }

  /** Drop leading white space. */
  function TrimLeft(s: string): string {
    if s != [] && IsSpace(s[0]) then TrimLeft(s[1..]) else s
  }

  /** Drop trailing white space. */
  function TrimRight(s: string): string {
    if s != [] && IsSpace(s[|s| - 1]) then TrimRight(s[..|s| - 1]) else s
  }

  /** `TrimLeft` keeps a suffix that starts with a non-space. */
  lemma {:induction false} TrimLeftFacts(s: string)
    ensures |TrimLeft(s)| <= |s| && TrimLeft(s) == s[|s| - |TrimLeft(s)|..]
    ensures TrimLeft(s) == [] || !IsSpace(TrimLeft(s)[0])
  {
    if s != [] && IsSpace(s[0]) {
      TrimLeftFacts(s[1..]);
    }
  }

  /** `TrimRight` keeps a prefix that ends with a non-space. */
  lemma {:induction false} TrimRightFacts(s: string)
    ensures |TrimRight(s)| <= |s| && TrimRight(s) == s[..|TrimRight(s)|]
    ensures TrimRight(s) == [] || !IsSpace(TrimRight(s)[|TrimRight(s)| - 1])
  {
    if s != [] && IsSpace(s[|s| - 1]) {
      TrimRightFacts(s[..|s| - 1]);
    }
  }

  /** `strings.TrimSpace`: drop leading, then trailing, white space. */
  function TrimSpace(s: string): (r: string)
    ensures Trimmed(r)
  {
    TrimLeftFacts(s);
    TrimRightFacts(TrimLeft(s));
    assert TrimRight(TrimLeft(s)) != [] ==> TrimRight(TrimLeft(s))[0] == TrimLeft(s)[0];
    TrimRight(TrimLeft(s))
  }

  /** Trimming leaves a trimmed string as it is, and only a trimmed one. */
  lemma TrimSpaceFixpoint(s: string)
    ensures TrimSpace(s) == s <==> Trimmed(s)
  {
    if Trimmed(s) && s != [] {
      assert TrimLeft(s) == s;
      assert TrimRight(s) == s;
    }
  }

  /** A character of a trimmed string is a character of the original. */
  lemma TrimSpaceChars(s: string, c: char)
    requires c in TrimSpace(s)
    ensures c in s
  {
    TrimLeftFacts(s);
    TrimRightFacts(TrimLeft(s));
    var l := TrimLeft(s);
    var r := TrimRight(l);
    var k :| 0 <= k < |r| && r[k] == c;
    assert r[k] == l[k];
    assert l[k] == s[|s| - |l| + k];
  }

  /** Trimming cannot introduce a character. */
  lemma TrimSpaceAvoids(s: string, cs: set<char>)
    ensures Avoids(s, cs) ==> Avoids(TrimSpace(s), cs)
  {
    TrimLeftFacts(s);
    TrimRightFacts(TrimLeft(s));
    var l := TrimLeft(s);
    var r := TrimRight(l);
    if Avoids(s, cs) {
      forall k | 0 <= k < |r| ensures r[k] !in cs {
        assert r[k] == l[k] == s[|s| - |l| + k];
      }
    }
  }

  /** A string with only white space trims to the empty string. */
  lemma {:induction false} TrimLeftAllSpace(s: string)
    requires AllSpace(s)
    ensures TrimLeft(s) == []
  {
    if s != [] {
      TrimLeftAllSpace(s[1..]);
    }
  }

  lemma {:induction false} TrimLeftPrefix(pre: string, m: string)
    requires AllSpace(pre)
    ensures TrimLeft(pre + m) == TrimLeft(m)
  {
    if pre != [] {
      assert (pre + m)[0] == pre[0] && IsSpace(pre[0]);
      assert AllSpace(pre[1..]) by {
        forall k | 0 <= k < |pre[1..]| ensures IsSpace(pre[1..][k]) {
          assert pre[1..][k] == pre[k + 1];
        }
      }
      assert (pre + m)[1..] == pre[1..] + m;
      TrimLeftPrefix(pre[1..], m);
    } else {
      assert pre + m == m;
    }
  }

  lemma {:induction false} TrimRightSuffix(m: string, post: string)
    requires AllSpace(post)
    ensures TrimRight(m + post) == TrimRight(m)
  {
    if post != [] {
      assert (m + post)[|m + post| - 1] == post[|post| - 1] && IsSpace(post[|post| - 1]);
      var front := post[..|post| - 1];
      assert AllSpace(front) by {
        forall k | 0 <= k < |front| ensures IsSpace(front[k]) {
          assert front[k] == post[k];
        }
      }
      assert (m + post)[..|m + post| - 1] == m + post[..|post| - 1];
      TrimRightSuffix(m, post[..|post| - 1]);
    } else {
      assert m + post == m;
    }
  }

  /** Padding a trimmed string with white space on either side trims back to it. */
  lemma TrimSpacePadded(pre: string, m: string, post: string)
    requires AllSpace(pre) && AllSpace(post) && Trimmed(m)
    ensures TrimSpace(pre + m + post) == m
  {
    assert pre + m + post == pre + (m + post);
    TrimLeftPrefix(pre, m + post);
    if m == [] {
      assert m + post == post;
      TrimLeftAllSpace(post);
    } else {
      assert TrimLeft(m + post) == m + post;
      TrimRightSuffix(m, post);
      assert TrimRight(m) == m;
    }
  }

  // ---------------------------------------------------------------------
  // Splitting and joining
  // ---------------------------------------------------------------------

  /**
   * The pieces between occurrences of any character of `seps`:
   * `strings.Split(s, "\n")` for `seps == {'\n'}` and
   * `regexp.MustCompile("[;,]").Split(s, -1)` for `seps == {',', ';'}`
   * (both give `[""]` for the empty string).
   */
  function SplitOn(s: string, seps: set<char>): (r: seq<string>)
    ensures |r| >= 1
  {
    if s == [] then [""]
    else
      var rest := SplitOn(s[1..], seps);
      if s[0] in seps then [""] + rest
      else [[s[0]] + rest[0]] + rest[1..]
  }

  /** No piece of a split holds a separator. */
  lemma {:induction false} SplitOnPieces(s: string, seps: set<char>)
    ensures forall k :: 0 <= k < |SplitOn(s, seps)| ==> Avoids(SplitOn(s, seps)[k], seps)
  {
    if s != [] {
      SplitOnPieces(s[1..], seps);
      var rest := SplitOn(s[1..], seps);
      if s[0] !in seps {
        var first := [s[0]] + rest[0];
        forall j | 0 <= j < |first| ensures first[j] !in seps {
          if j > 0 {
            assert first[j] == rest[0][j - 1];
          }
        }
      }
    }
  }

  /** Splitting cannot introduce a character. */
  lemma {:induction false} SplitOnAvoids(s: string, seps: set<char>, cs: set<char>)
    ensures Avoids(s, cs) ==> forall k :: 0 <= k < |SplitOn(s, seps)| ==> Avoids(SplitOn(s, seps)[k], cs)
  {
    if s != [] && Avoids(s, cs) {
      SplitOnAvoids(s[1..], seps, cs);
      var rest := SplitOn(s[1..], seps);
      if s[0] !in seps {
        var first := [s[0]] + rest[0];
        forall j | 0 <= j < |first| ensures first[j] !in cs {
          if j > 0 {
            assert first[j] == rest[0][j - 1];
          }
        }
      }
    }
  }

  /** `strings.Join`: a join of at least one element starts with the first. */
  function Join(xs: seq<string>, sep: string): (r: string)
    ensures xs != [] ==> HasPrefix(r, xs[0])
  {
    if xs == [] then ""
    else if |xs| == 1 then xs[0]
    else
      var rest := Join(xs[1..], sep);
      assert xs[0] + sep + rest == xs[0] + (sep + rest);
      xs[0] + sep + rest
  }

  /** A string free of separators is a single piece. */
  lemma {:induction false} SplitOnAvoiding(s: string, seps: set<char>)
    requires Avoids(s, seps)
    ensures SplitOn(s, seps) == [s]
  {
    if s != [] {
      SplitOnAvoiding(s[1..], seps);
      assert s == [s[0]] + s[1..];
    }
  }

  /** Splitting distributes over a separator character. */
  lemma {:induction false} SplitOnConcat(a: string, c: char, b: string, seps: set<char>)
    requires c in seps
    ensures SplitOn(a + [c] + b, seps) == SplitOn(a, seps) + SplitOn(b, seps)
  {
    var s := a + [c] + b;
    if a == [] {
      assert s[0] == c && s[1..] == b;
    } else {
      var t := a[1..];
      assert s[0] == a[0] && s[1..] == t + [c] + b;
      SplitOnConcat(t, c, b, seps);
      var rest := SplitOn(s[1..], seps);
      var front := SplitOn(t, seps);
      assert rest == front + SplitOn(b, seps);
      if a[0] !in seps {
        assert rest[0] == front[0];
        assert rest[1..] == front[1..] + SplitOn(b, seps);
        assert SplitOn(a, seps) == [[a[0]] + front[0]] + front[1..];
      }
    }
  }

  /** Prefixing the first piece prefixes the join. */
  lemma JoinPrefixFirst(x: char, xs: seq<string>, sep: string)
    requires xs != []
    ensures Join([[x] + xs[0]] + xs[1..], sep) == [x] + Join(xs, sep)
  {
    var ys := [[x] + xs[0]] + xs[1..];
    assert ys[0] == [x] + xs[0] && ys[1..] == xs[1..];
    if |xs| > 1 {
      assert Join(ys, sep) == ys[0] + sep + Join(ys[1..], sep);
    }
  }

  /** Joining the pieces of a split with its one separator gives back the string. */
  lemma {:induction false} JoinSplitOn(s: string, c: char)
    ensures Join(SplitOn(s, {c}), [c]) == s
  {
    if s != [] {
      JoinSplitOn(s[1..], c);
      var rest := SplitOn(s[1..], {c});
      assert s == [s[0]] + s[1..];
      if s[0] == c {
        assert SplitOn(s, {c}) == [""] + rest;
        assert ([""] + rest)[1..] == rest;
      } else {
        JoinPrefixFirst(s[0], rest, [c]);
      }
    }
  }

  /** Splitting a join whose pieces avoid the separator gives back the pieces. */
  lemma {:induction false} SplitOnJoin(xs: seq<string>, c: char)
    requires xs != []
    requires forall k :: 0 <= k < |xs| ==> Avoids(xs[k], {c})
    ensures SplitOn(Join(xs, [c]), {c}) == xs
  {
    if |xs| == 1 {
      SplitOnAvoiding(xs[0], {c});
    } else {
      SplitOnConcat(xs[0], c, Join(xs[1..], [c]), {c});
      SplitOnAvoiding(xs[0], {c});
      SplitOnJoin(xs[1..], c);
      assert xs == [xs[0]] + xs[1..];
    }
  }

  /** The index of the first `c` in `s`, or `|s|` when there is none (`strings.IndexByte`). */
  function IndexOf(s: string, c: char): (i: nat)
    ensures i <= |s|
  {
    if s == [] || s[0] == c then 0 else 1 + IndexOf(s[1..], c)
  }

  /** `IndexOf` finds the first occurrence, and reports `|s|` only when there is none. */
  lemma {:induction false} IndexOfFirst(s: string, c: char)
    ensures IndexOf(s, c) < |s| ==> s[IndexOf(s, c)] == c
    ensures Avoids(s[..IndexOf(s, c)], {c})
    ensures IndexOf(s, c) == |s| <==> Avoids(s, {c})
  {
    if s != [] && s[0] != c {
      IndexOfFirst(s[1..], c);
      var i := IndexOf(s, c);
      assert s[..i] == [s[0]] + s[1..][..i - 1];
    }
  }

  /** `strings.SplitN(s, [c], 2)`: `[s]` without `c`, else the parts before and after its first occurrence. */
  function SplitFirst(s: string, c: char): (r: seq<string>)
    ensures |r| == 1 || |r| == 2
  {
    var i := IndexOf(s, c);
    if i == |s| then [s] else [s[..i], s[i + 1..]]
  }

  /** What `SplitFirst` promises: one piece exactly when `c` is absent; otherwise a cut at the first `c`. */
  lemma SplitFirstFacts(s: string, c: char)
    ensures |SplitFirst(s, c)| == 1 <==> Avoids(s, {c})
    ensures |SplitFirst(s, c)| == 1 ==> SplitFirst(s, c)[0] == s
    ensures |SplitFirst(s, c)| == 2 ==>
              Avoids(SplitFirst(s, c)[0], {c}) && s == SplitFirst(s, c)[0] + [c] + SplitFirst(s, c)[1]
  {
    IndexOfFirst(s, c);
    var i := IndexOf(s, c);
    if i < |s| {
      assert s == s[..i] + [c] + s[i + 1..];
    }
  }

  /** `SplitFirst` cuts at the first occurrence of `c`. */
  lemma SplitFirstAt(s: string, c: char, i: nat)
    requires i < |s| && s[i] == c && Avoids(s[..i], {c})
    ensures SplitFirst(s, c) == [s[..i], s[i + 1..]]
  {
    IndexOfFirst(s, c);
  }

  /** Cutting at the first `c` cannot introduce a character. */
  lemma SplitFirstAvoids(s: string, c: char, cs: set<char>)
    ensures Avoids(s, cs) ==> forall k :: 0 <= k < |SplitFirst(s, c)| ==> Avoids(SplitFirst(s, c)[k], cs)
  {
    var r := SplitFirst(s, c);
    var i := IndexOf(s, c);
    if Avoids(s, cs) && |r| == 2 {
      forall j | 0 <= j < |r[0]| ensures r[0][j] !in cs {
        assert r[0][j] == s[j];
      }
      forall j | 0 <= j < |r[1]| ensures r[1][j] !in cs {
        assert r[1][j] == s[i + 1 + j];
      }
    }
  }

  /** Joining pieces and a separator that avoid `cs` gives a string that avoids `cs`. */
  lemma {:induction false} JoinAvoids(xs: seq<string>, sep: string, cs: set<char>)
    requires forall k :: 0 <= k < |xs| ==> Avoids(xs[k], cs)
    requires Avoids(sep, cs)
    ensures Avoids(Join(xs, sep), cs)
  {
    if |xs| > 1 {
      JoinAvoids(xs[1..], sep, cs);
      AvoidsConcat(xs[0], sep, cs);
      AvoidsConcat(xs[0] + sep, Join(xs[1..], sep), cs);
    }
  }

  /**
   * Splitting `pre + Join(xs, [c] + pad)` on a set holding `c` but no
   * character of the pieces gives `pre + xs[0]` followed by `pad + xs[k]`
   * for each later piece.
   */
  lemma {:induction false} SplitOnJoinPadded(pre: string, xs: seq<string>, c: char, pad: string, seps: set<char>)
    requires c in seps && xs != []
    requires Avoids(pre, seps) && Avoids(pad, seps)
    requires forall k :: 0 <= k < |xs| ==> Avoids(xs[k], seps)
    ensures SplitOn(pre + Join(xs, [c] + pad), seps) == [pre + xs[0]] + PadEach(xs[1..], pad)
    decreases |xs|
  {
    AvoidsConcat(pre, xs[0], seps);
    if |xs| == 1 {
      SplitOnAvoiding(pre + xs[0], seps);
    } else {
      var tail := Join(xs[1..], [c] + pad);
      assert pre + Join(xs, [c] + pad) == (pre + xs[0]) + [c] + (pad + tail);
      SplitOnConcat(pre + xs[0], c, pad + tail, seps);
      SplitOnAvoiding(pre + xs[0], seps);
      SplitOnJoinPadded(pad, xs[1..], c, pad, seps);
      assert xs[1..][1..] == xs[2..];
      assert PadEach(xs[1..], pad) == [pad + xs[1]] + PadEach(xs[2..], pad);
    }
  }

  /** `SplitOnJoinPadded` with nothing in front. */
  lemma SplitOnJoinSep(xs: seq<string>, c: char, pad: string, seps: set<char>)
    requires c in seps && xs != []
    requires Avoids(pad, seps)
    requires forall k :: 0 <= k < |xs| ==> Avoids(xs[k], seps)
    ensures SplitOn(Join(xs, [c] + pad), seps) == [xs[0]] + PadEach(xs[1..], pad)
  {
    SplitOnJoinPadded("", xs, c, pad, seps);
    assert "" + Join(xs, [c] + pad) == Join(xs, [c] + pad);
    assert "" + xs[0] == xs[0];
  }

  /** Each string of `xs` with `pad` in front. */
  function PadEach(xs: seq<string>, pad: string): (r: seq<string>)
    ensures |r| == |xs|
    ensures forall k :: 0 <= k < |xs| ==> r[k] == pad + xs[k]
  {
    seq(|xs|, k requires 0 <= k < |xs| => pad + xs[k])
  }

  /** `strings.HasPrefix`. */
  predicate HasPrefix(s: string, prefix: string) {
    |prefix| <= |s| && s[..|prefix|] == prefix
  }

  /** Joining non-empty trimmed strings gives a non-empty trimmed string. */
  lemma JoinTrimmed(xs: seq<string>, sep: string)
    requires xs != []
    requires forall k :: 0 <= k < |xs| ==> xs[k] != "" && Trimmed(xs[k])
    ensures Join(xs, sep) != "" && Trimmed(Join(xs, sep))
  {
    var j := Join(xs, sep);
    var last := xs[|xs| - 1];
    JoinEndsWithLast(xs, sep);
    assert j[0] == j[..|xs[0]|][0] == xs[0][0];
    assert j[|j| - 1] == j[|j| - |last|..][|last| - 1] == last[|last| - 1];
  }

  /** `x` occurs in `s` as a contiguous piece (`strings.Contains`). */
  predicate Contains(s: string, x: string) {
    exists i :: 0 <= i <= |s| - |x| && SliceAt(s, x, i)
  }

  /** `x` occurs in `s` starting at index `i`. */
  predicate SliceAt(s: string, x: string, i: int) {
    0 <= i <= |s| - |x| && s[i..i + |x|] == x
  }

  /** `strings.HasSuffix`. */
  predicate HasSuffix(s: string, suffix: string) {
    |suffix| <= |s| && s[|s| - |suffix|..] == suffix
  }

  /** A piece of `s` stays a piece, further on, after a prefix. */
  lemma SliceAtShift(pre: string, s: string, x: string, i: int)
    requires SliceAt(s, x, i)
    ensures SliceAt(pre + s, x, |pre| + i)
  {
    assert (pre + s)[|pre| + i..|pre| + i + |x|] == s[i..i + |x|];
  }

  /** Every element of a join is a piece of it. */
  lemma {:induction false} JoinContains(xs: seq<string>, sep: string, k: nat)
    requires k < |xs|
    ensures Contains(Join(xs, sep), xs[k])
  {
    var j := Join(xs, sep);
    if |xs| == 1 {
      assert SliceAt(j, xs[0], 0);
    } else if k == 0 {
      assert j == xs[0] + (sep + Join(xs[1..], sep));
      assert SliceAt(j, xs[0], 0);
    } else {
      JoinContains(xs[1..], sep, k - 1);
      var rest := Join(xs[1..], sep);
      assert xs[1..][k - 1] == xs[k];
      var i :| 0 <= i <= |rest| - |xs[k]| && SliceAt(rest, xs[k], i);
      SliceAtShift(xs[0] + sep, rest, xs[k], i);
      assert SliceAt(j, xs[k], |xs[0] + sep| + i);
    }
  }

  /** A join ends with its last element. */
  lemma {:induction false} JoinEndsWithLast(xs: seq<string>, sep: string)
    requires xs != []
    ensures HasSuffix(Join(xs, sep), xs[|xs| - 1])
  {
    if |xs| > 1 {
      JoinEndsWithLast(xs[1..], sep);
      var rest := Join(xs[1..], sep);
      assert Join(xs, sep) == (xs[0] + sep) + rest;
    }
  }

  /** `strings.TrimSuffix`. */
  function TrimSuffix(s: string, suffix: string): (r: string)
    ensures HasSuffix(s, suffix) ==> r + suffix == s
    ensures !HasSuffix(s, suffix) ==> r == s
  {
    if HasSuffix(s, suffix) then s[..|s| - |suffix|] else s
  }

  // ---------------------------------------------------------------------
  // Paths
  // ---------------------------------------------------------------------

  function TrimTrailingSlashes(s: string): string {
    if s != [] && s[|s| - 1] == '/' then TrimTrailingSlashes(s[..|s| - 1]) else s
  }

  /** The characters after the last '/'. */
  function LastElement(s: string): string {
    if s == [] || s[|s| - 1] == '/' then []
    else LastElement(s[..|s| - 1]) + [s[|s| - 1]]
  }

  lemma {:induction false} LastElementNoSlash(s: string)
    ensures '/' !in LastElement(s)
  {
    if s != [] && s[|s| - 1] != '/' {
      LastElementNoSlash(s[..|s| - 1]);
    }
  }

  /**
   * `filepath.Base` with the Unix separator: "." for the empty path, "/" for
   * a path of slashes only, otherwise the last element once trailing
   * slashes are gone.
   */
  function Base(path: string): (r: string)
    ensures r != []
  {
    if path == [] then "."
    else
      var last := LastElement(TrimTrailingSlashes(path));
      if last == [] then "/" else last
  }

  /** A base name holds a '/' only when it is "/" itself. */
  lemma BaseNoSlash(path: string)
    ensures '/' in Base(path) ==> Base(path) == "/"
  {
    if path != [] {
      LastElementNoSlash(TrimTrailingSlashes(path));
    }
  }

  lemma {:induction false} LastElementWhole(s: string)
    requires '/' !in s
    ensures LastElement(s) == s
  {
    if s != [] {
      LastElementWhole(s[..|s| - 1]);
      assert s == s[..|s| - 1] + [s[|s| - 1]];
    }
  }

  /** The last element of `dir + "/" + file` is `file` when `file` has no '/'. */
  lemma {:induction false} LastElementAfterSlash(dir: string, file: string)
    requires '/' !in file
    ensures LastElement(dir + "/" + file) == file
    decreases |file|
  {
    var path := dir + "/" + file;
    if file == [] {
      assert path[|path| - 1] == '/';
    } else {
      var front := file[..|file| - 1];
      assert path[..|path| - 1] == dir + "/" + front;
      assert path[|path| - 1] == file[|file| - 1];
      LastElementAfterSlash(dir, front);
      assert LastElement(path) == LastElement(path[..|path| - 1]) + [path[|path| - 1]];
      assert front + [file[|file| - 1]] == file;
    }
  }

  /** The base name of `dir + "/" + file` is `file` when `file` is a non-empty name without '/'. */
  lemma BaseAfterSlash(dir: string, file: string)
    requires file != "" && '/' !in file
    ensures Base(dir + "/" + file) == file
  {
    var path := dir + "/" + file;
    assert path[|path| - 1] == file[|file| - 1];
    assert TrimTrailingSlashes(path) == path;
    LastElementAfterSlash(dir, file);
  }

  /** A non-empty name without '/' is its own base name. */
  lemma BaseOfName(name: string)
    requires name != "" && '/' !in name
    ensures Base(name) == name
  {
    assert name[|name| - 1] in name;
    assert TrimTrailingSlashes(name) == name;
    LastElementWhole(name);
  }

  // ---------------------------------------------------------------------
  // Decimal numbers
  // ---------------------------------------------------------------------

  const MaxInt64: int := 0x7FFF_FFFF_FFFF_FFFF
  const MinInt64: int := -0x8000_0000_0000_0000

  predicate IsDigit(c: char) {
    '0' <= c <= '9'
  }

  predicate AllDigits(s: string) {
    forall k :: 0 <= k < |s| ==> IsDigit(s[k])
  }

  function DigitChar(d: nat): (c: char)
    requires d < 10
    ensures IsDigit(c) && c as int - '0' as int == d
  {
    ('0' as int + d) as char
  }

  const MaxUint64: int := 0xFFFF_FFFF_FFFF_FFFF

  function DigitValue(c: char): (d: nat)
    requires IsDigit(c)
    ensures d < 10
  {
    c as int - '0' as int
  }

  /** The value of the digits `s` read left to right after the value `n`. */
  function DigitsValueFrom(n: nat, s: string): nat
    requires AllDigits(s)
    decreases s
  {
    if s == [] then n else DigitsValueFrom(n * 10 + DigitValue(s[0]), s[1..])
  }

  /** The value of a string of decimal digits. */
  function DigitsValue(s: string): nat
    requires AllDigits(s)
  {
    DigitsValueFrom(0, s)
  }

  /** The shortest decimal numeral of `n`. */
  function NatToString(n: nat): (r: string)
    ensures r != [] && AllDigits(r)
  {
    if n < 10 then [DigitChar(n)] else NatToString(n / 10) + [DigitChar(n % 10)]
  }

  /** `fmt.Sprintf("%d", n)`. */
  function IntToString(n: int): (r: string)
    ensures r != []
  {
    if n < 0 then "-" + NatToString(-n) else NatToString(n)
  }

  function ClampInt64(n: int): int {
    if n > MaxInt64 then MaxInt64 else if n < MinInt64 then MinInt64 else n
  }

  /** The outcome of `strconv.ParseUint(s, 10, 64)`. */
  datatype UintParse = Parsed(value: nat) | SyntaxError | RangeError

  /**
   * The digit loop of `ParseUint`, from the value `n` read so far: each
   * digit is multiplied in, the first step past 2^64 - 1 stops with a range
   * error before any later character is looked at, and a character that is
   * not a digit stops with a syntax error.
   */
  function ScanDigits(s: string, n: nat): UintParse {
    if s == [] then Parsed(n)
    else if !IsDigit(s[0]) then SyntaxError
    else
      var next := n * 10 + DigitValue(s[0]);
      if next > MaxUint64 then RangeError else ScanDigits(s[1..], next)
  }

  /** `strconv.ParseUint(s, 10, 64)`: no digits at all is a syntax error. */
  function ParseUint(s: string): UintParse {
    if s == [] then SyntaxError else ScanDigits(s, 0)
  }

  /**
   * `strconv.Atoi` with its error dropped, as `num, _ := strconv.Atoi(s)`
   * uses it on a 64-bit platform. `ParseInt` strips one sign and hands the
   * rest to `ParseUint`: a syntax error gives 0, and a range error or a
   * magnitude beyond the int64 range gives the bound on the side of the
   * sign. The fast path `Atoi` takes for inputs of 1 to 18 characters gives
   * the same results, since no such input can overflow.
   */
  function Atoi(s: string): (r: int)
    ensures MinInt64 <= r <= MaxInt64
  {
    if s == [] then 0
    else
      var negative := s[0] == '-';
      var magnitude := if s[0] == '-' || s[0] == '+' then s[1..] else s;
      match ParseUint(magnitude)
      case SyntaxError => 0
      case RangeError => if negative then MinInt64 else MaxInt64
      case Parsed(v) =>
        if negative then (if v > -MinInt64 then MinInt64 else -(v as int))
        else if v > MaxInt64 then MaxInt64 else v
  }

  /** Reading one more digit at the end multiplies it in. */
  lemma {:induction false} DigitsValueFromSnoc(n: nat, s: string, c: char)
    requires AllDigits(s) && IsDigit(c)
    ensures AllDigits(s + [c])
    ensures DigitsValueFrom(n, s + [c]) == DigitsValueFrom(n, s) * 10 + DigitValue(c)
    decreases s
  {
    assert forall k :: 0 <= k < |s + [c]| ==> IsDigit((s + [c])[k]) by {
      forall k | 0 <= k < |s + [c]| ensures IsDigit((s + [c])[k]) {
        if k < |s| { assert (s + [c])[k] == s[k]; }
      }
    }
    if s != [] {
      assert (s + [c])[0] == s[0] && (s + [c])[1..] == s[1..] + [c];
      DigitsValueFromSnoc(n * 10 + DigitValue(s[0]), s[1..], c);
    }
  }

  /** Reading more digits never lowers the value. */
  lemma {:induction false} DigitsValueFromGrows(n: nat, s: string)
    requires AllDigits(s)
    ensures DigitsValueFrom(n, s) >= n
    decreases s
  {
    if s != [] {
      DigitsValueFromGrows(n * 10 + DigitValue(s[0]), s[1..]);
    }
  }

  /**
   * Scanning a run of digits and then anything else: the scan stops with a
   * range error exactly when the run's value passes 2^64 - 1, and then what
   * follows the run is never looked at.
   */
  lemma {:induction false} ScanDigitsRun(digits: string, rest: string, n: nat)
    requires AllDigits(digits) && n <= MaxUint64
    ensures ScanDigits(digits + rest, n) ==
      if DigitsValueFrom(n, digits) > MaxUint64 then RangeError
      else ScanDigits(rest, DigitsValueFrom(n, digits))
  {
    if digits == [] {
      assert digits + rest == rest;
    } else {
      var next := n * 10 + DigitValue(digits[0]);
      assert (digits + rest)[0] == digits[0] && (digits + rest)[1..] == digits[1..] + rest;
      if next > MaxUint64 {
        DigitsValueFromGrows(next, digits[1..]);
      } else {
        ScanDigitsRun(digits[1..], rest, next);
      }
    }
  }

  /** What `Atoi` sees of `sign + rest`: the sign it strips and the magnitude it parses. */
  lemma AtoiSigned(sign: string, rest: string)
    requires sign == "" || sign == "+" || sign == "-"
    requires sign != "" || rest == [] || (rest[0] != '+' && rest[0] != '-')
    ensures Atoi(sign + rest) ==
      match ParseUint(rest)
      case SyntaxError => 0
      case RangeError => if sign == "-" then MinInt64 else MaxInt64
      case Parsed(v) => ClampInt64(if sign == "-" then -(v as int) else v)
  {
    var s := sign + rest;
    if sign == "" {
      assert s == rest;
    } else {
      assert s[0] == sign[0] && s[1..] == rest;
      assert (s[0] == '-') == (sign == "-");
    }
  }

  lemma {:induction false} DigitsValueOfNatToString(n: nat)
    ensures DigitsValue(NatToString(n)) == n
  {
    if n >= 10 {
      DigitsValueOfNatToString(n / 10);
      DigitsValueFromSnoc(0, NatToString(n / 10), DigitChar(n % 10));
      assert NatToString(n) == NatToString(n / 10) + [DigitChar(n % 10)];
      assert DigitsValue(NatToString(n)) == (n / 10) * 10 + n % 10;
    } else {
      var r := NatToString(n);
      assert r == [DigitChar(n)] && r[1..] == [];
      assert DigitsValueFrom(0, r) == DigitsValueFrom(DigitValue(r[0]), r[1..]);
    }
  }

  /** A sign and a run of digits read as the signed value, pinned to the int64 range. */
  lemma AtoiNumeral(sign: string, digits: string)
    requires sign == "" || sign == "+" || sign == "-"
    requires digits != [] && AllDigits(digits)
    ensures Atoi(sign + digits) == ClampInt64(if sign == "-" then -(DigitsValue(digits) as int) else DigitsValue(digits))
  {
    AtoiSigned(sign, digits);
    ScanDigitsRun(digits, [], 0);
    assert digits + [] == digits;
  }

  /**
   * A run of digits whose value passes 2^64 - 1 reads as the int64 bound on
   * the side of the sign, whatever follows the run.
   */
  lemma AtoiOverflow(sign: string, digits: string, rest: string)
    requires sign == "" || sign == "+" || sign == "-"
    requires AllDigits(digits) && DigitsValue(digits) > MaxUint64
    ensures Atoi(sign + digits + rest) == if sign == "-" then MinInt64 else MaxInt64
  {
    assert digits != [];
    assert sign + digits + rest == sign + (digits + rest);
    AtoiSigned(sign, digits + rest);
    ScanDigitsRun(digits, rest, 0);
  }

  /** A run of digits that fits in 64 bits, followed by a character that is not a digit, reads as 0. */
  lemma AtoiTrailing(sign: string, digits: string, rest: string)
    requires sign == "" || sign == "+" || sign == "-"
    requires sign + digits != ""
    requires AllDigits(digits) && DigitsValue(digits) <= MaxUint64
    requires rest != [] && !IsDigit(rest[0])
    ensures Atoi(sign + digits + rest) == 0
  {
    assert sign + digits + rest == sign + (digits + rest);
    if digits == [] {
      assert digits + rest == rest;
      AtoiSigned(sign, rest);
    } else {
      AtoiSigned(sign, digits + rest);
      ScanDigitsRun(digits, rest, 0);
    }
  }

  /** Reading `a + b` is reading `a` and then `b`. */
  lemma {:induction false} DigitsValueFromAppend(n: nat, a: string, b: string)
    requires AllDigits(a) && AllDigits(b)
    ensures AllDigits(a + b)
    ensures DigitsValueFrom(n, a + b) == DigitsValueFrom(DigitsValueFrom(n, a), b)
    decreases a
  {
    assert forall k :: 0 <= k < |a + b| ==> IsDigit((a + b)[k]) by {
      forall k | 0 <= k < |a + b| ensures IsDigit((a + b)[k]) {
        if k < |a| { assert (a + b)[k] == a[k]; } else { assert (a + b)[k] == b[k - |a|]; }
      }
    }
    if a == [] {
      assert a + b == b;
    } else {
      assert (a + b)[0] == a[0] && (a + b)[1..] == a[1..] + b;
      DigitsValueFromAppend(n * 10 + DigitValue(a[0]), a[1..], b);
    }
  }

  /** Twenty nines are past 2^64 - 1. */
  lemma TwentyNines()
    ensures AllDigits("99999" + "99999" + "99999" + "99999")
    ensures DigitsValue("99999" + "99999" + "99999" + "99999") > MaxUint64
  {
    var five := "99999";
    assert DigitsValueFrom(0, "99999") == 99999;
    assert DigitsValueFrom(99999, "99999") == 99999_99999;
    assert DigitsValueFrom(99999_99999, "99999") == 99999_99999_99999;
    assert DigitsValueFrom(99999_99999_99999, "99999") == 99999_99999_99999_99999;
    DigitsValueFromAppend(0, five, five);
    DigitsValueFromAppend(0, five + five, five);
    DigitsValueFromAppend(0, five + five + five, five);
  }

  /** Twenty nines overflow at the twentieth digit, so the trailing 'x' is never reached. */
  lemma AtoiOverflowBeforeSyntaxError()
    ensures Atoi("99999999999999999999x") == MaxInt64
  {
    var five := "99999";
    TwentyNines();
    AtoiOverflow("", five + five + five + five, "x");
    assert "" + (five + five + five + five) + "x" == "99999999999999999999x";
  }

  /** `Atoi` reads back what `%d` prints, for every 64-bit integer. */
  lemma AtoiIntToString(n: int)
    requires MinInt64 <= n <= MaxInt64
    ensures Atoi(IntToString(n)) == n
  {
    if n < 0 {
      DigitsValueOfNatToString(-n);
      AtoiNumeral("-", NatToString(-n));
    } else {
      DigitsValueOfNatToString(n);
      AtoiNumeral("", NatToString(n));
      assert "" + NatToString(n) == NatToString(n);
    }
  }

  /** Input with no digit to read is 0: the empty string, a lone sign, or a first character that is neither sign nor digit. */
  lemma AtoiSyntaxError(s: string)
    requires s == "" || s == "+" || s == "-" || (s[0] != '-' && s[0] != '+' && !IsDigit(s[0]))
    ensures Atoi(s) == 0
  {
  }
}
