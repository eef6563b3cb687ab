/**
 * The pieces of JavaScript semantics that the HPGA code leans on: optional
 * values (undefined / null), truthiness of `||`, ASCII upper-casing, `trim()`,
 * `replace` with a string pattern, and reads of plain-object dictionaries.
 */
module Js {

  datatype Option<+T> = None | Some(value: T)

  /** A value or the reason carried by a thrown error. */
  datatype Result<+T> = Ok(value: T) | Err(error: string)

  /** Text of the TypeError raised when code reads a property of null or undefined. */
  const TYPE_ERROR: string := "TypeError: cannot read property of null or undefined"

  // ---------------------------------------------------------------- truthiness

  /** A string-valued expression is truthy when it is defined and non-empty. */
  predicate Truthy(o: Option<string>) {
    o.Some? && o.value != ""
  }

  /** `a || b` on optional strings. */
  function Or(a: Option<string>, b: Option<string>): (r: Option<string>)
    ensures Truthy(a) ==> r == a
    ensures !Truthy(a) ==> r == b
    ensures Truthy(r) <==> Truthy(a) || Truthy(b)
  {
    if Truthy(a) then a else b
  }

  /** `a || d` with a string default `d`. */
  function OrElse(a: Option<string>, d: string): (r: string)
    ensures Truthy(a) ==> r == a.value
    ensures !Truthy(a) ==> r == d
  {
    if Truthy(a) then a.value else d
  }

  // ---------------------------------------------------------------- characters

  /** The characters that `.` in a regular expression does not match. */
  predicate IsLineTerminator(c: char) {
    c == '\n' || c == '\r' || c == '\U{2028}' || c == '\U{2029}'
  }

  predicate NoLineTerminator(s: string) {
    forall i :: 0 <= i < |s| ==> !IsLineTerminator(s[i])
  }

  /** The characters `String.prototype.trim` removes (white space and line terminators). */
  predicate IsWhiteSpace(c: char) {
    || c == '\t' || c == '\U{B}' || c == '\U{C}' || c == ' ' || c == '\U{A0}'
    || c == '\U{1680}' || ('\U{2000}' <= c <= '\U{200A}') || c == '\U{202F}'
    || c == '\U{205F}' || c == '\U{3000}' || c == '\U{FEFF}'
    || IsLineTerminator(c)
  }

  predicate IsLower(c: char) { 'a' <= c <= 'z' }

  predicate IsUpper(c: char) { 'A' <= c <= 'Z' }

  function UpperChar(c: char): (u: char)
    ensures IsLower(c) ==> IsUpper(u)
    ensures !IsLower(c) ==> u == c
  {
    if IsLower(c) then (c as int - 32) as char else c
  }

  /** `toUpperCase()`, restricted to the ASCII letters. */
  function ToUpper(s: string): (r: string)
    ensures |r| == |s|
    ensures forall i :: 0 <= i < |s| ==> r[i] == UpperChar(s[i])
  {
    seq(|s|, i requires 0 <= i < |s| => UpperChar(s[i]))
  }

  // ---------------------------------------------------------------- searching

  /** Index of the first occurrence of `c` in `s`. */
  function IndexOf(s: string, c: char): (r: Option<nat>)
    ensures r.None? <==> c !in s
    ensures r.Some? ==> r.value < |s| && s[r.value] == c
    ensures r.Some? ==> forall j :: 0 <= j < r.value ==> s[j] != c
  {
    if s == [] then None
    else if s[0] == c then Some(0)
    else match IndexOf(s[1..], c)
      case None => None
      case Some(i) => Some(i + 1)
  }

  /** The first index holding `c` is the one `IndexOf` finds. */
  lemma {:induction false} IndexOfAt(s: string, c: char, k: nat)
    requires k < |s| && s[k] == c
    requires forall j :: 0 <= j < k ==> s[j] != c
    ensures IndexOf(s, c) == Some(k)
  {
    if k > 0 {
      assert forall j :: 0 <= j < k - 1 ==> s[1..][j] == s[j + 1];
      IndexOfAt(s[1..], c, k - 1);
    }
  }

  /** Searching past a prefix that lacks `c` shifts a found index by the prefix's length. */
  lemma IndexOfAppend(x: string, y: string, c: char, k: nat)
    requires c !in x && IndexOf(y, c) == Some(k)
    ensures IndexOf(x + y, c) == Some(|x| + k)
  {
    var s := x + y;
    forall j | 0 <= j < |x| + k ensures s[j] != c {
      if j < |x| {
        assert s[j] == x[j] && x[j] in x;
      } else {
        assert s[j] == y[j - |x|];
      }
    }
    IndexOfAt(s, c, |x| + k);
  }

  predicate StartsWith(s: string, p: string) {
    |p| <= |s| && s[..|p|] == p
  }

  /** Index of the first occurrence of the substring `pat` in `s`. */
  function Find(s: string, pat: string): (r: Option<nat>)
    ensures r.Some? ==> r.value + |pat| <= |s| && s[r.value..r.value + |pat|] == pat
    ensures r.Some? ==> forall j :: 0 <= j < r.value ==> !StartsWith(s[j..], pat)
    ensures r.None? ==> forall j :: 0 <= j <= |s| ==> !StartsWith(s[j..], pat)
    decreases |s|
  {
    if StartsWith(s, pat) then Some(0)
    else if s == [] then None
    else
      TailShift(s);
      match Find(s[1..], pat)
      case None => None
      case Some(i) =>
        SliceShift(s, i, |pat|);
        Some(i + 1)
  }

  /** The suffixes of `s` past its first character are the suffixes of `s[1..]`. */
  lemma TailShift(s: string)
    requires s != []
    ensures forall j :: 1 <= j <= |s| ==> s[j..] == s[1..][j - 1..]
  {
  }

  lemma SliceShift(s: string, i: nat, n: nat)
    requires i + 1 + n <= |s|
    ensures s[i + 1..i + 1 + n] == s[1..][i..i + n]
  {
  }

  /** `s.replace(pat, '')`: the first occurrence of `pat` is cut out, if there is one. */
  function RemoveFirst(s: string, pat: string): (r: string)
    ensures Find(s, pat).None? ==> r == s
    ensures Find(s, pat).Some? ==>
      var i := Find(s, pat).value; r == s[..i] + s[i + |pat|..]
  {
    match Find(s, pat)
    case None => s
    case Some(i) => s[..i] + s[i + |pat|..]
  }

  /** An occurrence at the very start is the first one. */
  lemma FindAtStart(s: string, pat: string)
    requires StartsWith(s, pat)
    ensures Find(s, pat) == Some(0)
  {
  }

  /** A pattern that starts with a character absent from `x` is first found after `x`. */
  lemma {:induction false} FindAfter(x: string, y: string, pat: string)
    requires pat != [] && pat[0] !in x && StartsWith(y, pat)
    ensures Find(x + y, pat) == Some(|x|)
  {
    if x == [] {
      assert x + y == y;
    } else {
      var s := x + y;
      assert s[1..] == x[1..] + y;
      assert pat[0] !in x[1..] by {
        assert forall k :: 0 <= k < |x| - 1 ==> x[1..][k] == x[k + 1];
      }
      FindAfter(x[1..], y, pat);
      assert !StartsWith(s, pat) by { assert s[0] == x[0]; }
      FindStep(s, pat);
    }
  }

  /** Where `s` does not start with `pat`, the search goes on one character later. */
  lemma FindStep(s: string, pat: string)
    requires s != [] && !StartsWith(s, pat)
    ensures Find(s, pat) == (match Find(s[1..], pat) case None => None case Some(i) => Some(i + 1))
  {
  }

  /**
   * `s.replace(/a/g, b)` for a single character `a`: the session's parser
   * turns spaces back into newlines, a client squeezes newlines into spaces.
   */
  function ReplaceChar(s: string, a: char, b: char): (r: string)
    ensures |r| == |s| && (a != b ==> a !in r)
    ensures forall i :: 0 <= i < |s| ==> r[i] == (if s[i] == a then b else s[i])
  {
    seq(|s|, i requires 0 <= i < |s| => if s[i] == a then b else s[i])
  }

  /** Squeezing newlines into spaces is undone by the rewrite, for text that had no spaces. */
  lemma SpacesUndoSqueeze(s: string)
    requires ' ' !in s
    ensures ReplaceChar(ReplaceChar(s, '\n', ' '), ' ', '\n') == s
  {
    var r := ReplaceChar(ReplaceChar(s, '\n', ' '), ' ', '\n');
    assert forall i :: 0 <= i < |s| ==> r[i] == s[i] by {
      forall i | 0 <= i < |s| ensures r[i] == s[i] {
        assert s[i] != ' ' by { assert s[i] in s; }
      }
    }
  }

  // ---------------------------------------------------------------- trim

  function TrimStart(s: string): (r: string)
    ensures |r| <= |s| && r == s[|s| - |r|..]
    ensures r != [] ==> !IsWhiteSpace(r[0])
    ensures forall i :: 0 <= i < |s| - |r| ==> IsWhiteSpace(s[i])
  {
    if s != [] && IsWhiteSpace(s[0]) then TrimStart(s[1..]) else s
  }

  function TrimEnd(s: string): (r: string)
    ensures |r| <= |s| && r == s[..|r|]
    ensures r != [] ==> !IsWhiteSpace(r[|r| - 1])
    ensures forall i :: |r| <= i < |s| ==> IsWhiteSpace(s[i])
  {
    if s != [] && IsWhiteSpace(s[|s| - 1]) then TrimEnd(s[..|s| - 1]) else s
  }

  /** `s.trim()`. */
  function Trim(s: string): (r: string)
    ensures r == [] || (!IsWhiteSpace(r[0]) && !IsWhiteSpace(r[|r| - 1]))
  {
    TrimEnd(TrimStart(s))
  }

  predicate AllWhiteSpace(s: string) {
    forall i :: 0 <= i < |s| ==> IsWhiteSpace(s[i])
  }

  lemma {:induction false} TrimStartOf(lead: string, t: string)
    requires AllWhiteSpace(lead) && (t == [] || !IsWhiteSpace(t[0]))
    ensures TrimStart(lead + t) == t
  {
    if lead == [] {
      assert lead + t == t;
    } else {
      assert (lead + t)[0] == lead[0];
      assert (lead + t)[1..] == lead[1..] + t;
      TrimStartOf(lead[1..], t);
    }
  }

  lemma {:induction false} TrimEndOf(t: string, trail: string)
    requires AllWhiteSpace(trail) && (t == [] || !IsWhiteSpace(t[|t| - 1]))
    ensures TrimEnd(t + trail) == t
  {
    if trail == [] {
      assert t + trail == t;
    } else {
      var s := t + trail;
      assert s[|s| - 1] == trail[|trail| - 1];
      assert s[..|s| - 1] == t + trail[..|trail| - 1];
      TrimEndOf(t, trail[..|trail| - 1]);
    }
  }

  /** Trimming recovers a word that is surrounded only by white space. */
  lemma TrimSurrounded(lead: string, t: string, trail: string)
    requires AllWhiteSpace(lead) && AllWhiteSpace(trail)
    requires t != [] && !IsWhiteSpace(t[0]) && !IsWhiteSpace(t[|t| - 1])
    ensures Trim(lead + t + trail) == t
  {
    assert lead + t + trail == lead + (t + trail);
    TrimStartOf(lead, t + trail);
    TrimEndOf(t, trail);
  }

  // ---------------------------------------------------------------- dictionaries

  /** The names a plain object `{}` inherits from `Object.prototype`. */
  const INHERITED_NAMES: set<string> := {
    "constructor", "__proto__", "hasOwnProperty", "isPrototypeOf",
    "propertyIsEnumerable", "toLocaleString", "toString", "valueOf",
    "__defineGetter__", "__defineSetter__", "__lookupGetter__", "__lookupSetter__"
  }

  /** What `obj[key]` yields on a dictionary built from `{}`. */
  datatype Lookup<+V> = Own(value: V) | Inherited(name: string) | Undefined

  /** `obj[key]` on a plain object: an own entry, else an inherited member, else undefined. */
  function Get<V>(m: map<string, V>, key: string): (r: Lookup<V>)
    ensures r.Own? <==> key in m
    ensures r.Own? ==> r.value == m[key]
    ensures r.Inherited? <==> key !in m && key in INHERITED_NAMES
  {
    if key in m then Own(m[key])
    else if key in INHERITED_NAMES then Inherited(key)
    else Undefined
  }

  // ---------------------------------------------------------------- random text

  predicate IsLowerHexDigit(c: char) { '0' <= c <= '9' || 'a' <= c <= 'f' }

  /** Output of `crypto.randomBytes(n).toString('hex')`: 2n lower-case hex digits. */
  predicate IsHexOfBytes(s: string, n: nat) {
    |s| == 2 * n && forall i :: 0 <= i < |s| ==> IsLowerHexDigit(s[i])
  }
}
