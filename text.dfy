/** String operations of the JavaScript runtime that the core relies on. */
module Text {
  import opened Wrappers

  /** `pat` occurs in `s` at index `i`. */
  predicate OccursAt(s: string, pat: string, i: int) {
    0 <= i && i + |pat| <= |s| && s[i..i + |pat|] == pat
  }

  /** `s.indexOf(pat, from)`: the first index at or after `from` where `pat` occurs. */
  function IndexOfFrom(s: string, pat: string, from: nat): (r: Option<nat>)
    ensures r.Some? ==> from <= r.value && OccursAt(s, pat, r.value)
    ensures r.Some? ==> forall j :: from <= j < r.value ==> !OccursAt(s, pat, j)
    ensures r.None? ==> forall j :: from <= j ==> !OccursAt(s, pat, j)
    decreases |s| - from
  {
    if from + |pat| > |s| then None
    else if s[from..from + |pat|] == pat then Some(from)
    else IndexOfFrom(s, pat, from + 1)
  }

  /** The search from `from` stops at `at` when no character before it can start `pat`. */
  lemma IndexOfFromAt(s: string, pat: string, from: nat, at: nat)
    requires |pat| > 0 && from <= at && OccursAt(s, pat, at)
    requires forall j :: from <= j < at ==> s[j] != pat[0]
    ensures IndexOfFrom(s, pat, from) == Some(at)
  {
    forall j | from <= j < at ensures !OccursAt(s, pat, j) {
      assert j + |pat| > |s| || s[j..j + |pat|][0] == s[j];
    }
  }

  /** `s.indexOf(pat)`. */
  function IndexOf(s: string, pat: string): (r: Option<nat>)
    ensures r.Some? ==> OccursAt(s, pat, r.value) && forall j :: 0 <= j < r.value ==> !OccursAt(s, pat, j)
    ensures r.None? ==> forall j :: !OccursAt(s, pat, j)
  {
    IndexOfFrom(s, pat, 0)
  }

  /** `s.indexOf(c)` for a one-character pattern. */
  function FirstIndexOfChar(s: string, c: char): (r: Option<nat>)
    ensures r.Some? ==> r.value < |s| && s[r.value] == c && c !in s[..r.value]
    ensures r.Some? ==> forall k :: 0 <= k < r.value ==> s[k] != c
    ensures r.None? <==> c !in s
    ensures r.None? ==> forall k :: 0 <= k < |s| ==> s[k] != c
  {
    if |s| == 0 then None
    else if s[0] == c then Some(0)
    else match FirstIndexOfChar(s[1..], c)
      case None => None
      case Some(i) => assert s[..i + 1] == [s[0]] + s[1..][..i]; Some(i + 1)
  }

  /** The one-character search is `indexOf` with a one-character pattern. */
  lemma FirstIndexOfCharAgrees(s: string, c: char)
    ensures FirstIndexOfChar(s, c) == IndexOf(s, [c])
  {
    forall j | 0 <= j < |s| ensures OccursAt(s, [c], j) <==> s[j] == c {
      assert s[j..j + 1] == [s[j]];
    }
  }

  /** `s.lastIndexOf(c)` for a one-character pattern. */
  function LastIndexOfChar(s: string, c: char): (r: Option<nat>)
    ensures r.Some? ==> r.value < |s| && s[r.value] == c && c !in s[r.value + 1..]
    ensures r.Some? ==> forall k :: r.value < k < |s| ==> s[k] != c
    ensures r.None? <==> c !in s
    ensures r.None? ==> forall k :: 0 <= k < |s| ==> s[k] != c
  {
    if |s| == 0 then None
    else if s[|s| - 1] == c then Some(|s| - 1)
    else match LastIndexOfChar(s[..|s| - 1], c)
      case None => None
      case Some(i) => assert s[i + 1..] == s[..|s| - 1][i + 1..] + [s[|s| - 1]]; Some(i)
  }

  /** `s.replace(pat, rep)` with a string pattern: only the first occurrence is replaced. */
  function ReplaceFirst(s: string, pat: string, rep: string): string {
    match IndexOf(s, pat)
    case None => s
    case Some(i) => s[..i] + rep + s[i + |pat|..]
  }

  /**
   * The first occurrence of `pat` in `a + b + c + pat + post` is the one after
   * `c`, when no occurrence can start in `a`, `b` or `c`: `a` and `c` lack
   * `pat`'s first character, `b` has no occurrence of its own, and none can
   * straddle the end of `b` because `c` starts with a character foreign to `pat`.
   */
  lemma ReplaceFirstSkipping(a: string, b: string, c: string, pat: string, post: string, rep: string)
    requires |pat| > 0 && pat[0] !in a && pat[0] !in c
    requires forall j :: !OccursAt(b, pat, j)
    requires |b| == 0 || (|c| > 0 && c[0] !in pat)
    ensures IndexOf(a + b + c + pat + post, pat) == Some(|a| + |b| + |c|)
    ensures ReplaceFirst(a + b + c + pat + post, pat, rep) == a + b + c + rep + post
  {
    var s := a + b + c + pat + post;
    var n := |a| + |b| + |c|;
    assert s[n..n + |pat|] == pat;
    forall j | 0 <= j < n ensures !OccursAt(s, pat, j) {
      if j < |a| {
        assert s[j] == a[j];
      } else if j < |a| + |b| {
        if j + |pat| <= |a| + |b| {
          assert s[j..j + |pat|] == b[j - |a|..j - |a| + |pat|];
          assert !OccursAt(b, pat, j - |a|);
        } else if j + |pat| <= |s| {
          var k := |a| + |b| - j;
          assert s[j..j + |pat|][k] == c[0];
          assert pat[k] in pat;
        }
      } else {
        assert s[j] == c[j - |a| - |b|];
      }
    }
    assert OccursAt(s, pat, n);
    var r := IndexOf(s, pat);
    assert r.Some? && r.value <= n;
    assert s[..n] + rep + s[n + |pat|..] == a + b + c + rep + post;
  }

  /** A window lying inside the middle part of `a + b + rest` reads the same as in `b`. */
  lemma MiddleWindow(a: string, b: string, rest: string, i: nat, m: nat)
    requires i + m <= |b|
    ensures (a + b + rest)[|a| + i..|a| + i + m] == b[i..i + m]
  {
    var u, v := (a + b + rest)[|a| + i..|a| + i + m], b[i..i + m];
    forall k | 0 <= k < m ensures u[k] == v[k] {
      assert u[k] == (a + b + rest)[|a| + i + k];
    }
  }

  /** Cutting `a + b + rest` around a stretch of `b`. */
  lemma MiddleCut(a: string, b: string, rest: string, f: nat, m: nat)
    requires f + m <= |b|
    ensures (a + b + rest)[..|a| + f] == a + b[..f]
    ensures (a + b + rest)[|a| + f + m..] == b[f + m..] + rest
  {
    var s := a + b + rest;
    var u, v := s[..|a| + f], a + b[..f];
    forall k | 0 <= k < |u| ensures u[k] == v[k] {
      if k >= |a| {
        assert s[k] == b[k - |a|];
      }
    }
    var x, y := s[|a| + f + m..], b[f + m..] + rest;
    forall k | 0 <= k < |x| ensures x[k] == y[k] {
      assert x[k] == s[|a| + f + m + k];
    }
    assert u == v && x == y;
  }

  /** When `b` contains `pat` and `a` cannot start it, the first `pat` in `a + b + rest` is `b`'s first. */
  lemma IndexOfInside(a: string, b: string, rest: string, pat: string)
    requires |pat| > 0 && pat[0] !in a && IndexOf(b, pat).Some?
    ensures IndexOf(a + b + rest, pat) == Some(|a| + IndexOf(b, pat).value)
  {
    var s := a + b + rest;
    var f := IndexOf(b, pat).value;
    var n := |a| + f;
    MiddleWindow(a, b, rest, f, |pat|);
    assert OccursAt(s, pat, n);
    forall j | 0 <= j < n ensures !OccursAt(s, pat, j) {
      if j < |a| {
        assert s[j] == a[j];
        assert j + |pat| > |s| || s[j..j + |pat|][0] == s[j];
      } else {
        MiddleWindow(a, b, rest, j - |a|, |pat|);
        assert !OccursAt(b, pat, j - |a|);
      }
    }
  }

  /** `replace` cuts `pat` out where `indexOf` found it and puts `rep` there. */
  lemma ReplaceFirstAt(s: string, pat: string, rep: string, n: nat)
    requires IndexOf(s, pat) == Some(n)
    ensures n + |pat| <= |s| && ReplaceFirst(s, pat, rep) == s[..n] + rep + s[n + |pat|..]
  {
  }

  /** When `b` contains `pat`, replacing the first `pat` in `a + b + rest` replaces it inside `b`. */
  lemma ReplaceFirstInside(a: string, b: string, rest: string, pat: string, rep: string)
    requires |pat| > 0 && pat[0] !in a && IndexOf(b, pat).Some?
    ensures ReplaceFirst(a + b + rest, pat, rep) == a + ReplaceFirst(b, pat, rep) + rest
  {
    var f := IndexOf(b, pat).value;
    IndexOfInside(a, b, rest, pat);
    ReplaceFirstAt(a + b + rest, pat, rep, |a| + f);
    ReplaceFirstAt(b, pat, rep, f);
    MiddleCut(a, b, rest, f, |pat|);
    Regroup(a, b[..f], rep, b[f + |pat|..], rest);
  }

  lemma Regroup<T>(a: seq<T>, x: seq<T>, y: seq<T>, z: seq<T>, w: seq<T>)
    ensures (a + x) + y + (z + w) == a + (x + y + z) + w
  {
  }

  /** An optional string that JavaScript treats as truthy: present and not empty. */
  predicate Present(s: Option<string>) {
    s.Some? && s.value != ""
  }

  /** `s || d` on an optional string: `s` when present and non-empty. */
  function OrElse(s: Option<string>, d: string): (r: string)
    ensures Present(s) ==> r == s.value
    ensures !Present(s) ==> r == d
  {
    if Present(s) then s.value else d
  }

  /** A pattern whose first character does not occur in `s` does not occur in `s`. */
  lemma NoLeadCharNoOccurrence(s: string, pat: string)
    requires |pat| > 0 && pat[0] !in s
    ensures forall j :: !OccursAt(s, pat, j)
  {
    forall j | 0 <= j && j + |pat| <= |s| ensures !OccursAt(s, pat, j) {
      assert s[j..j + |pat|][0] == s[j];
    }
  }

  /** A stretch of `s` where `pat` starts nowhere holds no occurrence of `pat`. */
  lemma NoOccurrenceInSlice(s: string, pat: string, a: nat, b: nat, r: string)
    requires |pat| > 0 && a <= b <= |s| && r == s[a..b]
    requires forall j :: a <= j < b ==> !OccursAt(s, pat, j)
    ensures forall j :: !OccursAt(r, pat, j)
  {
    forall j | 0 <= j && j + |pat| <= |r| ensures !OccursAt(r, pat, j) {
      assert !OccursAt(s, pat, a + j);
      var u, v := r[j..j + |pat|], s[a + j..a + j + |pat|];
      forall k | 0 <= k < |pat| ensures u[k] == v[k] {
      }
      assert u == v;
    }
  }

  /** `s.startsWith(prefix)`. */
  predicate StartsWith(s: string, prefix: string) {
    |prefix| <= |s| && s[..|prefix|] == prefix
  }

  /** `s.slice(0, n)` / `s.substring(0, n)` for `n >= 0`. */
  function Take<T>(s: seq<T>, n: nat): (r: seq<T>)
    ensures |r| == if |s| < n then |s| else n
    ensures r == s[..|r|]
  {
    if |s| < n then s else s[..n]
  }

  /** `parts.join(sep)`. */
  function Join(parts: seq<string>, sep: string): string
  {
    if |parts| == 0 then ""
    else if |parts| == 1 then parts[0]
    else parts[0] + sep + Join(parts[1..], sep)
  }

  /** The characters that `String.prototype.trim` removes: ECMAScript WhiteSpace and LineTerminator. */
  predicate IsWhitespace(c: char) {
    c == '\t' || c == '\n' || c == '\U{B}' || c == '\U{C}' || c == '\r' || c == ' '
    || c == '\U{A0}' || c == '\U{1680}' || ('\U{2000}' <= c <= '\U{200A}')
    || c == '\U{2028}' || c == '\U{2029}' || c == '\U{202F}' || c == '\U{205F}'
    || c == '\U{3000}' || c == '\U{FEFF}'
  }

  /** Every character of `s` is whitespace. */
  predicate IsBlank(s: string) {
    forall i :: 0 <= i < |s| ==> IsWhitespace(s[i])
  }

  /** `s` without its leading whitespace. */
  function TrimStart(s: string): (r: string)
    ensures |r| <= |s| && r == s[|s| - |r|..]
    ensures forall k :: 0 <= k < |s| - |r| ==> IsWhitespace(s[k])
    ensures r == [] || !IsWhitespace(r[0])
  {
    if |s| == 0 || !IsWhitespace(s[0]) then s else TrimStart(s[1..])
  }

  /** `s` without its trailing whitespace. */
  function TrimEnd(s: string): (r: string)
    ensures |r| <= |s| && r == s[..|r|]
    ensures forall k :: |r| <= k < |s| ==> IsWhitespace(s[k])
    ensures r == [] || !IsWhitespace(r[|r| - 1])
  {
    if |s| == 0 || !IsWhitespace(s[|s| - 1]) then s else TrimEnd(s[..|s| - 1])
  }

  /** `r` is `s[i..j]`, and everything of `s` outside `i..j` is whitespace. */
  predicate TrimmedAt(s: string, r: string, i: int, j: int) {
    && 0 <= i <= j <= |s| && r == s[i..j]
    && (forall k :: 0 <= k < i ==> IsWhitespace(s[k]))
    && (forall k :: j <= k < |s| ==> IsWhitespace(s[k]))
  }

  /** `s.trim()`: `s` without its leading and trailing whitespace. */
  function Trim(s: string): (r: string)
    ensures |r| <= |s|
  {
    TrimEnd(TrimStart(s))
  }

  /** The bounds of the slice that `Trim` keeps. */
  lemma TrimBounds(s: string) returns (i: nat, j: nat)
    ensures TrimmedAt(s, Trim(s), i, j)
  {
    var t := TrimStart(s);
    i := |s| - |t|;
    j := i + |Trim(s)|;
  }

  /**
   * What `trim` keeps: a stretch of `s` with only whitespace outside it,
   * which itself neither starts nor ends with whitespace.
   */
  lemma TrimSpec(s: string)
    ensures exists i, j :: TrimmedAt(s, Trim(s), i, j)
    ensures Trim(s) == [] || (!IsWhitespace(Trim(s)[0]) && !IsWhitespace(Trim(s)[|Trim(s)| - 1]))
  {
    var i, j := TrimBounds(s);
  }

  /** `Trim` keeps a slice of its input. */
  lemma TrimIsSlice(s: string) returns (i: nat, j: nat)
    ensures i <= j <= |s| && Trim(s) == s[i..j]
  {
    var t := TrimStart(s);
    i := |s| - |t|;
    j := i + |TrimEnd(t)|;
  }

  /** A slice of a slice is a slice of the whole. */
  lemma SliceOfSlice<T>(s: seq<T>, start: nat, end: nat, i: nat, j: nat)
    requires start <= end <= |s| && i <= j <= end - start
    ensures s[start..end][i..j] == s[start + i..start + j]
  {
    var u, v := s[start..end][i..j], s[start + i..start + j];
    forall k | 0 <= k < |u| ensures u[k] == v[k] {
      assert u[k] == s[start..end][i + k];
    }
  }

  /** Trimming a stretch of `s` leaves a smaller stretch of `s`. */
  lemma TrimOfSlice(s: string, start: nat, end: nat) returns (a: nat, b: nat)
    requires start <= end <= |s|
    ensures start <= a <= b <= end && Trim(s[start..end]) == s[a..b]
  {
    var i, j := TrimIsSlice(s[start..end]);
    SliceOfSlice(s, start, end, i, j);
    a, b := start + i, start + j;
  }

  /** A string trims to "" exactly when every character is whitespace. */
  lemma {:induction false} TrimEmptyIffBlank(s: string)
    ensures Trim(s) == "" <==> IsBlank(s)
  {
    if IsBlank(s) {
      BlankTrimStart(s);
    }
  }

  lemma {:induction false} BlankTrimStart(s: string)
    requires IsBlank(s)
    ensures TrimStart(s) == []
  {
    if |s| > 0 {
      BlankTrimStart(s[1..]);
    }
  }

  /** ASCII lower-casing of one character. */
  function LowerChar(c: char): char {
    if 'A' <= c <= 'Z' then (c as int + 32) as char else c
  }

  /** `s.toLowerCase()` on the ASCII letters. */
  function ToLower(s: string): (r: string)
    ensures |r| == |s|
    ensures forall i :: 0 <= i < |s| ==> r[i] == LowerChar(s[i])
  {
    seq(|s|, i requires 0 <= i < |s| => LowerChar(s[i]))
  }
}
