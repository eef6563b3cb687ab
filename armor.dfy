/**
 * The string normalisation inside `readArmored` (passport-hpga/lib/pgp.js):
 * the text is cut into the matches of
 *   /(-{5}(?:BEGIN|END) PGP [A-Z]*-{5}|[a-zA-Z0-9+\/=]{1,64})/g
 * (armor lines and base64 runs of at most 64 characters, everything else is
 * dropped), a newline is appended to the first match, and the matches are
 * joined with newlines.
 */
module Armor {
  import opened Js

  predicate IsBase64Char(c: char) {
    IsUpper(c) || IsLower(c) || ('0' <= c <= '9') || c == '+' || c == '/' || c == '='
  }

  /** The upper bound of a base64 run, `{1,64}` in the pattern. */
  const MAX_RUN: nat := 64

  const DASHES: string := "-----"
  const BEGIN_PREFIX: string := "-----BEGIN PGP "
  const END_PREFIX: string := "-----END PGP "

  predicate AllUpper(s: string) {
    forall i :: 0 <= i < |s| ==> IsUpper(s[i])
  }

  predicate AllBase64(s: string) {
    forall i :: 0 <= i < |s| ==> IsBase64Char(s[i])
  }

  /** An armor line: `-----BEGIN PGP ` or `-----END PGP `, upper-case letters, `-----`. */
  predicate IsArmorLine(t: string) {
    && |t| >= 5 && t[|t| - 5..] == DASHES
    && (|| (StartsWith(t, BEGIN_PREFIX) && |t| >= 20 && AllUpper(t[15..|t| - 5]))
        || (StartsWith(t, END_PREFIX) && |t| >= 18 && AllUpper(t[13..|t| - 5])))
  }

  /** A base64 run: one to 64 characters of the base64 alphabet. */
  predicate IsBase64Run(t: string) {
    1 <= |t| <= MAX_RUN && AllBase64(t)
  }

  predicate IsToken(t: string) {
    IsArmorLine(t) || IsBase64Run(t)
  }

  /** Length of the longest run of upper-case letters at the start of `s` (`[A-Z]*`). */
  function UpperRun(s: string): (n: nat)
    ensures n <= |s| && AllUpper(s[..n])
    ensures n < |s| ==> !IsUpper(s[n])
  {
    if s != [] && IsUpper(s[0]) then 1 + UpperRun(s[1..]) else 0
  }

  /** Length of the greedy base64 run at the start of `s`, at most `cap` characters. */
  function Base64Run(s: string, cap: nat): (n: nat)
    ensures n <= |s| && n <= cap && AllBase64(s[..n])
    ensures n < |s| && n < cap ==> !IsBase64Char(s[n])
  {
    if cap > 0 && s != [] && IsBase64Char(s[0]) then 1 + Base64Run(s[1..], cap - 1) else 0
  }

  /** Length of the `-----BEGIN PGP ` / `-----END PGP ` prefix of `s`, or 0. */
  function KeywordLen(s: string): (k: nat)
    ensures k == 15 ==> StartsWith(s, BEGIN_PREFIX)
    ensures k == 13 ==> StartsWith(s, END_PREFIX)
    ensures k == 0 || k == 13 || k == 15
  {
    if StartsWith(s, BEGIN_PREFIX) then 15
    else if StartsWith(s, END_PREFIX) then 13
    else 0
  }

  /** Length of the armor line the first alternative matches at the start of `s`, or 0. */
  function ArmorLen(s: string): (n: nat)
    ensures n <= |s|
  {
    var k := KeywordLen(s);
    if k == 0 then 0
    else
      var u := UpperRun(s[k..]);
      if StartsWith(s[k + u..], DASHES) then k + u + 5 else 0
  }

  /** What the armor alternative matches is an armor line. */
  lemma ArmorLenIsArmorLine(s: string)
    requires ArmorLen(s) > 0
    ensures IsArmorLine(s[..ArmorLen(s)])
  {
    var k := KeywordLen(s);
    var u := UpperRun(s[k..]);
    var n := k + u + 5;
    assert ArmorLen(s) == n;
    var t := s[..n];
    var w := s[k..];
    assert t[n - 5..] == DASHES by {
      TakeSlice(s, n, n - 5, n);
      DropTake(s, k + u, 5);
      assert t[n - 5..] == t[n - 5..n];
    }
    assert AllUpper(t[k..n - 5]) by {
      TakeSlice(s, n, k, n - 5);
      DropTake(s, k, u);
      assert w[..u] == t[k..n - 5];
    }
    assert t[..k] == s[..k] by {
      TakeSlice(s, n, 0, k);
      assert t[..k] == t[0..k] && s[..k] == s[0..k];
    }
  }

  lemma TakeSlice<T>(s: seq<T>, n: nat, a: nat, b: nat)
    requires a <= b <= n <= |s|
    ensures s[..n][a..b] == s[a..b]
  {
    var l, r := s[..n][a..b], s[a..b];
    assert |l| == |r|;
    forall m | 0 <= m < b - a
      ensures l[m] == r[m]
    {
      assert l[m] == s[..n][a + m] == s[a + m];
    }
  }

  lemma DropTake<T>(s: seq<T>, k: nat, u: nat)
    requires k + u <= |s|
    ensures s[k..][..u] == s[k..k + u]
  {
    var l, r := s[k..][..u], s[k..k + u];
    assert |l| == |r|;
    forall m | 0 <= m < u
      ensures l[m] == r[m]
    {
      assert l[m] == s[k..][m] == s[k + m];
    }
  }

  /**
   * Length of the match at the start of `s`: the armor alternative is tried
   * first, then the base64 run; 0 when neither matches here.
   */
  function MatchLen(s: string): (m: nat)
    ensures m <= |s|
  {
    var a := ArmorLen(s);
    if a > 0 then a else Base64Run(s, MAX_RUN)
  }

  /** A run of upper-case letters followed by anything else is counted whole. */
  lemma {:induction false} UpperRunOf(a: string, b: string)
    requires AllUpper(a) && (b != [] ==> !IsUpper(b[0]))
    ensures UpperRun(a + b) == |a|
    decreases |a|
  {
    if a == [] {
      assert a + b == b;
    } else {
      assert (a + b)[1..] == a[1..] + b;
      assert forall i :: 0 <= i < |a| - 1 ==> a[1..][i] == a[i + 1];
      UpperRunOf(a[1..], b);
    }
  }

  /** An armor line at the start of a text is matched whole, by the armor alternative. */
  lemma ArmorLineMatchedWhole(t: string, rest: string)
    requires IsArmorLine(t)
    ensures ArmorLen(t + rest) == |t| && MatchLen(t + rest) == |t|
  {
    var s := t + rest;
    if StartsWith(t, BEGIN_PREFIX) {
      assert !StartsWith(t, END_PREFIX) by { assert t[5] == BEGIN_PREFIX[5] != END_PREFIX[5]; }
      assert s[..15] == t[..15];
      ArmorLineAfterKeyword(t, rest, 15);
    } else {
      assert s[..13] == t[..13];
      assert !StartsWith(s, BEGIN_PREFIX) by { assert s[5] == END_PREFIX[5] != BEGIN_PREFIX[5]; }
      ArmorLineAfterKeyword(t, rest, 13);
    }
  }

  /** Past its keyword, an armor line's letters and closing dashes are matched whole. */
  lemma ArmorLineAfterKeyword(t: string, rest: string, k: nat)
    requires 0 < k <= |t| - 5 && t[|t| - 5..] == DASHES && AllUpper(t[k..|t| - 5])
    requires KeywordLen(t + rest) == k
    ensures ArmorLen(t + rest) == |t|
  {
    var s := t + rest;
    var a := t[k..|t| - 5];
    assert t == t[..k] + a + DASHES;
    assert s[k..] == a + (DASHES + rest);
    UpperRunOf(a, DASHES + rest);
    assert s[k + |a|..] == DASHES + rest;
  }

  /** An armor line at the start of a text is the first match, and matching goes on after it. */
  lemma ArmorLineTokenFirst(t: string, rest: string)
    requires IsArmorLine(t)
    ensures Tokens(t + rest) == [t] + Tokens(rest)
  {
    var s := t + rest;
    ArmorLineMatchedWhole(t, rest);
    TokensStep(s);
    assert s[..|t|] == t && s[|t|..] == rest;
  }

  lemma MatchIsToken(s: string)
    requires MatchLen(s) > 0
    ensures IsToken(s[..MatchLen(s)])
  {
    if ArmorLen(s) > 0 {
      ArmorLenIsArmorLine(s);
    }
  }

  /** The matches of the pattern, in order: the global `match` of the source. */
  function Tokens(s: string): (ts: seq<string>)
    ensures |ts| <= |s|
    decreases |s|
  {
    if s == [] then []
    else
      var m := MatchLen(s);
      if m > 0 then [s[..m]] + Tokens(s[m..]) else Tokens(s[1..])
  }

  /** Every match is an armor line or a base64 run. */
  lemma {:induction false} TokensAreTokens(s: string)
    ensures forall t :: t in Tokens(s) ==> IsToken(t)
    decreases |s|
  {
    if s != [] {
      var m := MatchLen(s);
      if m > 0 {
        MatchIsToken(s);
        TokensAreTokens(s[m..]);
        assert Tokens(s) == [s[..m]] + Tokens(s[m..]);
      } else {
        TokensAreTokens(s[1..]);
      }
    }
  }

  /** No match contains a newline. */
  lemma TokenHasNoNewline(t: string)
    requires IsToken(t)
    ensures '\n' !in t
  {
    forall i | 0 <= i < |t| ensures t[i] != '\n' {
      if IsBase64Run(t) {
        assert IsBase64Char(t[i]);
      } else if i >= |t| - 5 {
        assert t[|t| - 5..][i - (|t| - 5)] == t[i];
      } else if StartsWith(t, BEGIN_PREFIX) && |t| >= 20 && AllUpper(t[15..|t| - 5]) {
        if i < 15 {
          assert t[..15][i] == t[i];
        } else {
          assert t[15..|t| - 5][i - 15] == t[i];
        }
      } else {
        if i < 13 {
          assert t[..13][i] == t[i];
        } else {
          assert t[13..|t| - 5][i - 13] == t[i];
        }
      }
    }
  }

  /**
   * A character that belongs to neither alternative (a line break, a tab, a
   * colon, ...): it can only separate matches.
   */
  predicate IsSeparator(c: char) {
    !IsBase64Char(c) && c != '-' && c != ' '
  }

  lemma {:induction false} UpperRunSep(x: string, c: char, y: string)
    requires IsSeparator(c)
    ensures UpperRun(x + [c] + y) == UpperRun(x)
  {
    if x == [] {
      assert (x + [c] + y)[0] == c;
    } else {
      assert (x + [c] + y)[0] == x[0];
      assert (x + [c] + y)[1..] == x[1..] + [c] + y;
      UpperRunSep(x[1..], c, y);
    }
  }

  lemma {:induction false} Base64RunSep(x: string, c: char, y: string, cap: nat)
    requires IsSeparator(c)
    ensures Base64Run(x + [c] + y, cap) == Base64Run(x, cap)
  {
    if x == [] {
      assert (x + [c] + y)[0] == c;
    } else if cap > 0 {
      assert (x + [c] + y)[0] == x[0];
      assert (x + [c] + y)[1..] == x[1..] + [c] + y;
      Base64RunSep(x[1..], c, y, cap - 1);
    }
  }

  /** A fixed prefix without separators is seen the same with or without what follows `x`. */
  lemma StartsWithSep(x: string, c: char, y: string, p: string)
    requires IsSeparator(c)
    requires forall i :: 0 <= i < |p| ==> p[i] == '-' || p[i] == ' ' || IsUpper(p[i])
    ensures StartsWith(x + [c] + y, p) <==> StartsWith(x, p)
  {
    var s := x + [c] + y;
    if |p| <= |x| {
      assert s[..|p|] == x[..|p|];
    } else if |p| <= |s| {
      assert s[..|p|][|x|] == c;
      assert s[..|p|][|x|] != p[|x|];
    }
  }

  lemma ArmorLenSep(x: string, c: char, y: string)
    requires IsSeparator(c)
    ensures ArmorLen(x + [c] + y) == ArmorLen(x)
  {
    var s := x + [c] + y;
    assert KeywordLen(s) == KeywordLen(x) by {
      StartsWithSep(x, c, y, BEGIN_PREFIX);
      StartsWithSep(x, c, y, END_PREFIX);
    }
    var k := KeywordLen(x);
    if k != 0 {
      ArmorTailSep(x, c, y, k);
    }
    ArmorLenSame(s, x);
  }

  /** Past a keyword of `x`, a separator after `x` changes neither the upper-case run nor the closing dashes. */
  lemma ArmorTailSep(x: string, c: char, y: string, k: nat)
    requires IsSeparator(c) && k <= |x|
    ensures
      var s := x + [c] + y;
      var u := UpperRun(x[k..]);
      && UpperRun(s[k..]) == u
      && (StartsWith(s[k + u..], DASHES) <==> StartsWith(x[k + u..], DASHES))
  {
    var s := x + [c] + y;
    var u := UpperRun(x[k..]);
    assert UpperRun(s[k..]) == u by {
      SliceAround(x, c, y, k);
      UpperRunSep(x[k..], c, y);
    }
    assert StartsWith(s[k + u..], DASHES) <==> StartsWith(x[k + u..], DASHES) by {
      SliceAround(x, c, y, k + u);
      StartsWithSep(x[k + u..], c, y, DASHES);
    }
  }

  /** Two texts with the same keyword, the same upper-case run and the same dashes after it have the same armor line length. */
  lemma ArmorLenSame(s: string, x: string)
    requires KeywordLen(s) == KeywordLen(x)
    requires KeywordLen(x) != 0 ==>
      var k := KeywordLen(x);
      && k <= |x| && k <= |s|
      && UpperRun(s[k..]) == UpperRun(x[k..])
      && k + UpperRun(x[k..]) <= |s|
      && (StartsWith(s[k + UpperRun(x[k..])..], DASHES) <==> StartsWith(x[k + UpperRun(x[k..])..], DASHES))
    ensures ArmorLen(s) == ArmorLen(x)
  {
  }

  lemma MatchLenSep(x: string, c: char, y: string)
    requires IsSeparator(c)
    ensures MatchLen(x + [c] + y) == MatchLen(x)
  {
    ArmorLenSep(x, c, y);
    Base64RunSep(x, c, y, MAX_RUN);
  }

  lemma ConcatAssoc<T>(a: seq<T>, b: seq<T>, c: seq<T>)
    ensures a + (b + c) == (a + b) + c
  {
  }

  /** The slices of `x + [c] + y` at a point inside `x`. */
  lemma SliceAround(x: string, c: char, y: string, m: nat)
    requires m <= |x|
    ensures (x + [c] + y)[..m] == x[..m] && (x + [c] + y)[m..] == x[m..] + [c] + y
  {
  }

  /** One step of the global match: a match here is taken whole, else one character is skipped. */
  lemma TokensStep(s: string)
    requires s != []
    ensures MatchLen(s) > 0 ==> Tokens(s) == [s[..MatchLen(s)]] + Tokens(s[MatchLen(s)..])
    ensures MatchLen(s) == 0 ==> Tokens(s) == Tokens(s[1..])
  {
  }

  /** After a match at the start of `x`, the split below it extends to `x` itself. */
  lemma SplitAfterMatch(x: string, c: char, y: string)
    requires IsSeparator(c) && x != [] && MatchLen(x) > 0
    requires Tokens(x[MatchLen(x)..] + [c] + y) == Tokens(x[MatchLen(x)..]) + Tokens(y)
    ensures Tokens(x + [c] + y) == Tokens(x) + Tokens(y)
  {
    var m := MatchLen(x);
    var t := x[m..];
    var h := [x[..m]];
    assert Tokens(x + [c] + y) == h + Tokens(t + [c] + y) by {
      MatchLenSep(x, c, y);
      SliceAround(x, c, y, m);
      TokensStep(x + [c] + y);
    }
    assert Tokens(x) == h + Tokens(t) by {
      TokensStep(x);
    }
    ConcatAssoc(h, Tokens(t), Tokens(y));
  }

  /** Where no match starts at `x`, the split below it extends to `x` itself. */
  lemma SplitAfterSkip(x: string, c: char, y: string)
    requires IsSeparator(c) && x != [] && MatchLen(x) == 0
    requires Tokens(x[1..] + [c] + y) == Tokens(x[1..]) + Tokens(y)
    ensures Tokens(x + [c] + y) == Tokens(x) + Tokens(y)
  {
    assert Tokens(x + [c] + y) == Tokens(x[1..] + [c] + y) by {
      MatchLenSep(x, c, y);
      SliceAround(x, c, y, 1);
      TokensStep(x + [c] + y);
    }
    assert Tokens(x) == Tokens(x[1..]) by {
      TokensStep(x);
    }
  }

  /** Splitting at a separator character splits the list of matches. */
  lemma {:induction false} TokensSplitAtSeparator(x: string, c: char, y: string)
    requires IsSeparator(c)
    ensures Tokens(x + [c] + y) == Tokens(x) + Tokens(y)
    decreases |x|
  {
    if x == [] {
      var s := x + [c] + y;
      MatchLenSep(x, c, y);
      assert s[1..] == y;
    } else if MatchLen(x) > 0 {
      TokensSplitAtSeparator(x[MatchLen(x)..], c, y);
      SplitAfterMatch(x, c, y);
    } else {
      TokensSplitAtSeparator(x[1..], c, y);
      SplitAfterSkip(x, c, y);
    }
  }

  // ---------------------------------------------------------------- joining

  /** `ts.join('\n')`. */
  function JoinLines(ts: seq<string>): string {
    if |ts| == 0 then ""
    else if |ts| == 1 then ts[0]
    else ts[0] + "\n" + JoinLines(ts[1..])
  }

  /** `s.split('\n')`. */
  function Lines(s: string): (ls: seq<string>)
    ensures |ls| >= 1
    decreases |s|
  {
    match IndexOf(s, '\n')
    case None => [s]
    case Some(i) => [s[..i]] + Lines(s[i + 1..])
  }

  /** A newline-free first line is split off whole. */
  lemma LinesAfterLine(a: string, rest: string)
    requires '\n' !in a
    ensures Lines(a + "\n" + rest) == [a] + Lines(rest)
  {
    var s := a + "\n" + rest;
    assert IndexOf(s, '\n') == Some(|a|) by {
      assert s == a + ("\n" + rest);
      IndexOfAppend(a, "\n" + rest, '\n', 0);
    }
    assert s[..|a|] == a && s[|a| + 1..] == rest;
  }

  /** Splitting undoes joining when no piece holds a newline. */
  lemma {:induction false} LinesOfJoin(ts: seq<string>)
    requires |ts| >= 1
    requires forall i :: 0 <= i < |ts| ==> '\n' !in ts[i]
    ensures Lines(JoinLines(ts)) == ts
  {
    if |ts| > 1 {
      var rest := ts[1..];
      assert JoinLines(ts) == ts[0] + "\n" + JoinLines(rest);
      LinesAfterLine(ts[0], JoinLines(rest));
      assert forall i :: 0 <= i < |rest| ==> '\n' !in rest[i] by {
        assert forall i :: 0 <= i < |rest| ==> rest[i] == ts[i + 1];
      }
      LinesOfJoin(rest);
      assert ts == [ts[0]] + rest;
    }
  }

  /** `lines[0] += '\n'; lines.join('\n')` is joining with an empty second line. */
  lemma JoinWithBlankSecondLine(t0: string, rest: seq<string>)
    ensures JoinLines([t0 + "\n"] + rest) == JoinLines([t0, ""] + rest)
  {
    var l := [t0 + "\n"] + rest;
    var r := [t0, ""] + rest;
    if rest != [] {
      assert l[1..] == rest;
      assert r[1..] == [""] + rest;
      assert ([""] + rest)[1..] == rest;
      assert JoinLines(r) == t0 + "\n" + ("" + "\n" + JoinLines(rest));
    } else {
      assert l == [t0 + "\n"];
      assert r[1..] == [""];
    }
  }

  /**
   * The text `readArmored` hands to the OpenPGP parser; a string without any
   * match makes `lines[0]` throw a TypeError.
   */
  function ReadArmoredText(message: string): (r: Result<string>)
    ensures r.Err? <==> Tokens(message) == []
    ensures r.Ok? ==>
      var ts := Tokens(message);
      Lines(r.value) == [ts[0], ""] + ts[1..]
  {
    var ts := Tokens(message);
    if ts == [] then Err(TYPE_ERROR)
    else
      var text := JoinLines([ts[0] + "\n"] + ts[1..]);
      assert Lines(text) == [ts[0], ""] + ts[1..] by {
        JoinWithBlankSecondLine(ts[0], ts[1..]);
        TokensAreTokens(message);
        var ls := [ts[0], ""] + ts[1..];
        forall i | 0 <= i < |ls| ensures '\n' !in ls[i] {
          if i == 0 {
            TokenHasNoNewline(ts[0]);
          } else if i >= 2 {
            assert ls[i] == ts[i - 1] && ts[i - 1] in ts;
            TokenHasNoNewline(ts[i - 1]);
          }
        }
        LinesOfJoin(ls);
      }
      Ok(text)
  }
}
