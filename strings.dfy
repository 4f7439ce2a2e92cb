/** The operations on Python `str` values that the detector and the humanizer are
    built from: `str.strip`, `in` on strings, `str.find`, `str.replace(w, n, 1)`,
    `str.split`, `str.join`, `re.split` on a character class without and with a
    capturing group. Characters are code points, as `len` counts them in Python. */
module Strings {
  import opened Wrappers

  /** Python's `str.isspace()` on one character. */
  predicate IsSpace(c: char) {
    c == ' ' || ('\t' <= c <= '\r') || ('\U{1C}' <= c <= '\U{1F}')
    || c == '\U{85}' || c == '\U{A0}' || c == '\U{1680}'
    || ('\U{2000}' <= c <= '\U{200A}') || c == '\U{2028}' || c == '\U{2029}'
    || c == '\U{202F}' || c == '\U{205F}' || c == '\U{3000}'
  }

  /** `not s or len(s.strip()) == 0`: the string holds nothing but whitespace. */
  predicate IsBlank(s: string) {
    forall i | 0 <= i < |s| :: IsSpace(s[i])
  }

  /** The first index at or after `i` that is not whitespace. */
  function SkipSpaces(s: string, i: nat): (k: nat)
    requires i <= |s|
    ensures i <= k <= |s|
    ensures forall j | i <= j < k :: IsSpace(s[j])
    ensures k < |s| ==> !IsSpace(s[k])
    decreases |s| - i
  {
    if i < |s| && IsSpace(s[i]) then SkipSpaces(s, i + 1) else i
  }

  /** The index just past the last non-whitespace character before `i`. */
  function BackSpaces(s: string, i: nat): (k: nat)
    requires i <= |s|
    ensures k <= i
    ensures forall j | k <= j < i :: IsSpace(s[j])
    ensures k > 0 ==> !IsSpace(s[k - 1])
  {
    if i > 0 && IsSpace(s[i - 1]) then BackSpaces(s, i - 1) else i
  }

  /** `s.strip()`: `s` without its leading and trailing whitespace. */
  function Strip(s: string): (r: string)
    ensures |r| <= |s|
    ensures r == [] <==> IsBlank(s)
    ensures r != [] ==> !IsSpace(r[0]) && !IsSpace(r[|r| - 1])
    ensures forall c | c in r :: c in s
    ensures exists a, b | 0 <= a <= b <= |s| :: r == s[a..b] && IsBlank(s[..a]) && IsBlank(s[b..])
  {
    var a := SkipSpaces(s, 0);
    if a == |s| then
      assert IsBlank(s[..a]) && IsBlank(s[a..]) && s[a..a] == [];
      []
    else
      var b := BackSpaces(s, |s|);
      assert IsBlank(s[..a]) && IsBlank(s[b..]);
      s[a..b]
  }

  /** `t.startswith(w)`. */
  predicate StartsWith(t: string, w: string) {
    |w| <= |t| && t[..|w|] == w
  }

  /** `w` occurs in `t` starting at index `j`. */
  predicate OccursAt(t: string, w: string, j: int) {
    0 <= j && j + |w| <= |t| && t[j..j + |w|] == w
  }

  /** `w in t`. */
  predicate Contains(t: string, w: string) {
    exists j | 0 <= j <= |t| :: OccursAt(t, w, j)
  }

  /** `k` is where the first occurrence of `w` in `t` starts. */
  predicate FirstAt(t: string, w: string, k: int) {
    OccursAt(t, w, k) && forall j | 0 <= j < k :: !OccursAt(t, w, j)
  }

  /** Scans for `w` in `t` from index `i` on. */
  function FindFrom(t: string, w: string, i: nat): (r: Option<nat>)
    requires i <= |t|
    ensures r.Some? ==> i <= r.value && OccursAt(t, w, r.value)
    ensures r.Some? ==> forall j | i <= j < r.value :: !OccursAt(t, w, j)
    ensures r.None? ==> forall j | i <= j <= |t| :: !OccursAt(t, w, j)
    decreases |t| - i
  {
    if OccursAt(t, w, i) then Some(i)
    else if i == |t| then None
    else FindFrom(t, w, i + 1)
  }

  /** `t.find(w)`, with `None` for Python's -1. */
  function IndexOf(t: string, w: string): (r: Option<nat>)
    ensures r.None? <==> !Contains(t, w)
    ensures r.Some? ==> FirstAt(t, w, r.value)
  {
    FindFrom(t, w, 0)
  }

  /** An occurrence of `w` that starts before `k` cannot lie inside `t[..k]`. */
  lemma FirstAtPrefixFree(t: string, w: string, k: nat)
    requires FirstAt(t, w, k)
    ensures |w| > 0 ==> !Contains(t[..k], w)
  {
    if |w| > 0 && Contains(t[..k], w) {
      var j :| 0 <= j <= k && OccursAt(t[..k], w, j);
      assert t[..k][j..j + |w|] == t[j..j + |w|];
      assert OccursAt(t, w, j);
    }
  }

  /** `t.replace(w, n, 1)`: the first occurrence of `w` becomes `n`. */
  function ReplaceFirst(t: string, w: string, n: string): (r: string)
    ensures !Contains(t, w) ==> r == t
    ensures Contains(t, w) ==> |r| == |t| - |w| + |n|
  {
    match IndexOf(t, w)
    case None => t
    case Some(k) => t[..k] + n + t[k + |w|..]
  }

  /** When `w` occurs, `replace(w, n, 1)` puts `n` in place of its first occurrence:
      the text before it is kept, and for a non-empty `w` contains no `w`. */
  lemma ReplaceFirstShape(t: string, w: string, n: string)
    requires Contains(t, w)
    ensures exists k :: FirstAt(t, w, k) && ReplaceFirst(t, w, n) == t[..k] + n + t[k + |w|..]
    ensures |w| > 0 ==>
      exists k :: FirstAt(t, w, k) && !Contains(t[..k], w) && ReplaceFirst(t, w, n) == t[..k] + n + t[k + |w|..]
  {
    var k := IndexOf(t, w).value;
    assert FirstAt(t, w, k);
    FirstAtPrefixFree(t, w, k);
  }

  /** `re.split('[seps]', s)` and, for one separator, `s.split(sep)`: the pieces
      between separators, empty pieces included. */
  function SplitOn(s: string, seps: set<char>): (r: seq<string>)
    ensures |r| >= 1
  {
    if s == [] then [""]
    else
      var rest := SplitOn(s[1..], seps);
      if s[0] in seps then [""] + rest
      else [[s[0]] + rest[0]] + rest[1..]
  }

  /** No piece of the split contains a separator. */
  lemma {:induction false} SplitOnPieces(s: string, seps: set<char>)
    ensures forall i | 0 <= i < |SplitOn(s, seps)| :: forall c | c in SplitOn(s, seps)[i] :: c !in seps
  {
    if s != [] {
      SplitOnPieces(s[1..], seps);
      var rest := SplitOn(s[1..], seps);
      if s[0] in seps {
        assert forall i | 1 <= i < |rest| + 1 :: SplitOn(s, seps)[i] == rest[i - 1];
      } else {
        assert forall i | 1 <= i < |rest| :: SplitOn(s, seps)[i] == rest[i];
      }
    }
  }

  /** The number of characters of `s` that are separators. */
  function CountSeps(s: string, seps: set<char>): nat {
    if s == [] then 0 else (if s[0] in seps then 1 else 0) + CountSeps(s[1..], seps)
  }

  /** `s` with every separator removed. */
  function DropSeps(s: string, seps: set<char>): string {
    if s == [] then "" else (if s[0] in seps then "" else [s[0]]) + DropSeps(s[1..], seps)
  }

  /** The split has one piece more than `s` has separators, and its pieces, read one
      after another, are `s` without the separators. */
  lemma {:induction false} SplitOnContent(s: string, seps: set<char>)
    ensures |SplitOn(s, seps)| == CountSeps(s, seps) + 1
    ensures Concat(SplitOn(s, seps)) == DropSeps(s, seps)
  {
    if s != [] {
      SplitOnContent(s[1..], seps);
      var rest := SplitOn(s[1..], seps);
      var r := SplitOn(s, seps);
      if s[0] in seps {
        assert r[1..] == rest;
      } else {
        assert r[1..] == rest[1..];
        assert Concat(rest) == rest[0] + Concat(rest[1..]);
      }
    }
  }

  /** `sep.join(ps)`. */
  function JoinWith(ps: seq<string>, sep: char): string {
    if |ps| == 0 then ""
    else if |ps| == 1 then ps[0]
    else ps[0] + [sep] + JoinWith(ps[1..], sep)
  }

  /** `''.join(ps)`. */
  function Concat(ps: seq<string>): string {
    if ps == [] then "" else ps[0] + Concat(ps[1..])
  }

  /** Splitting on one separator and joining with it gives the string back. */
  lemma {:induction false} JoinSplitOn(s: string, sep: char)
    ensures JoinWith(SplitOn(s, {sep}), sep) == s
  {
    if s != [] {
      var rest := SplitOn(s[1..], {sep});
      JoinSplitOn(s[1..], sep);
      if s[0] == sep {
        assert SplitOn(s, {sep}) == [""] + rest;
        assert ([""] + rest)[1..] == rest;
      } else {
        var r := SplitOn(s, {sep});
        assert r == [[s[0]] + rest[0]] + rest[1..];
        if |rest| == 1 {
          assert JoinWith(rest, sep) == rest[0];
        } else {
          assert r[1..] == rest[1..];
          assert JoinWith(rest, sep) == rest[0] + [sep] + JoinWith(rest[1..], sep);
        }
        assert s == [s[0]] + s[1..];
      }
    }
  }

  /** Joining a split-off front and back with the separator between them is joining the whole. */
  lemma {:induction false} JoinWithAt(ps: seq<string>, m: nat, sep: char)
    requires 0 < m < |ps|
    ensures JoinWith(ps[..m], sep) + [sep] + JoinWith(ps[m..], sep) == JoinWith(ps, sep)
  {
    if m > 1 {
      JoinWithAt(ps[1..], m - 1, sep);
      assert ps[1..][..m - 1] == ps[..m][1..];
      assert ps[1..][m - 1..] == ps[m..];
    } else {
      assert ps[..1] == [ps[0]];
      assert ps[1..] == ps[m..];
    }
  }

  /** `''.join` distributes over concatenation of the lists. */
  lemma {:induction false} ConcatAppend(a: seq<string>, b: seq<string>)
    ensures Concat(a + b) == Concat(a) + Concat(b)
  {
    if a != [] {
      ConcatAppend(a[1..], b);
      assert (a + b)[1..] == a[1..] + b;
    } else {
      assert a + b == b;
    }
  }

  /** Replacing one element of a list changes the length of its `''.join` by the difference. */
  lemma ConcatUpdateLength(ps: seq<string>, i: nat, x: string)
    requires i < |ps|
    ensures |Concat(ps[i := x])| == |Concat(ps)| - |ps[i]| + |x|
  {
    var qs := ps[i := x];
    assert ps == ps[..i] + [ps[i]] + ps[i + 1..];
    assert qs == ps[..i] + [x] + ps[i + 1..];
    ConcatAppend(ps[..i] + [ps[i]], ps[i + 1..]);
    ConcatAppend(ps[..i], [ps[i]]);
    ConcatAppend(ps[..i] + [x], ps[i + 1..]);
    ConcatAppend(ps[..i], [x]);
    assert Concat([x]) == x;
    assert Concat([ps[i]]) == ps[i];
  }

  /** `re.split('([marks])', s)`: the bodies between marks at even positions, each mark
      captured as a one-character string at the odd position after its body; the list
      has odd length and its last element is the tail after the final mark. */
  function SplitKeep(s: string, marks: set<char>): (r: seq<string>)
    ensures |r| % 2 == 1
  {
    if s == [] then [""]
    else
      var rest := SplitKeep(s[1..], marks);
      if s[0] in marks then ["", [s[0]]] + rest
      else [[s[0]] + rest[0]] + rest[1..]
  }

  /** The odd positions of the captured split hold single marks, the even positions
      mark-free bodies. */
  lemma {:induction false} SplitKeepShape(s: string, marks: set<char>)
    ensures forall i | 0 <= i < |SplitKeep(s, marks)| && i % 2 == 1 ::
      |SplitKeep(s, marks)[i]| == 1 && SplitKeep(s, marks)[i][0] in marks
    ensures forall i | 0 <= i < |SplitKeep(s, marks)| && i % 2 == 0 ::
      forall c | c in SplitKeep(s, marks)[i] :: c !in marks
  {
    if s != [] {
      SplitKeepShape(s[1..], marks);
      var rest := SplitKeep(s[1..], marks);
      var r := SplitKeep(s, marks);
      if s[0] in marks {
        assert forall i | 2 <= i < |r| :: r[i] == rest[i - 2];
      } else {
        assert forall i | 1 <= i < |r| :: r[i] == rest[i];
      }
    }
  }

  /** Re-joining the captured split reproduces the string. */
  lemma {:induction false} ConcatSplitKeep(s: string, marks: set<char>)
    ensures Concat(SplitKeep(s, marks)) == s
  {
    if s != [] {
      var rest := SplitKeep(s[1..], marks);
      ConcatSplitKeep(s[1..], marks);
      if s[0] in marks {
        var r := ["", [s[0]]] + rest;
        assert r[1..] == [[s[0]]] + rest;
        assert r[1..][1..] == rest;
      } else {
        var r := [[s[0]] + rest[0]] + rest[1..];
        assert r[1..] == rest[1..];
        assert Concat(rest) == rest[0] + Concat(rest[1..]);
      }
      assert s == [s[0]] + s[1..];
    }
  }
}
