/** The handful of Python `str` operations the application relies on:
    `isspace`, `strip`, `lower`, `in`, `startswith`, `find`, `split(sep)`,
    `split()` and `' '.join`, stated over `seq<char>`. */
module Text {

  datatype Option<T> = None | Some(value: T)

  /** Python's `str.isspace()` for one character. */
  predicate IsSpace(c: char) {
    c == ' ' || ('\t' <= c <= '\r') || ('\U{1C}' <= c <= '\U{1F}')
    || c == '\U{85}' || c == '\U{A0}' || c == '\U{1680}'
    || ('\U{2000}' <= c <= '\U{200A}') || c == '\U{2028}' || c == '\U{2029}'
    || c == '\U{202F}' || c == '\U{205F}' || c == '\U{3000}'
  }

  predicate NoSpace(s: string) {
    forall i :: 0 <= i < |s| ==> !IsSpace(s[i])
  }

  predicate StartsWith(s: string, p: string) {
    |p| <= |s| && s[..|p|] == p
  }

  /** `p` occurs in `s` starting at index `i`. */
  predicate OccursAt(s: string, p: string, i: int) {
    0 <= i && i + |p| <= |s| && s[i..i + |p|] == p
  }

  /** Python's `p in s`. */
  predicate Contains(s: string, p: string) {
    exists i | 0 <= i <= |s| - |p| :: OccursAt(s, p, i)
  }

  /** `str.lstrip()`: drops the leading whitespace. */
  function TrimStart(s: string): (r: string)
    ensures |r| <= |s| && r == s[|s| - |r|..]
    ensures forall i :: 0 <= i < |s| - |r| ==> IsSpace(s[i])
    ensures r == [] || !IsSpace(r[0])
  {
    if |s| > 0 && IsSpace(s[0]) then TrimStart(s[1..]) else s
  }

  /** `str.rstrip()`: drops the trailing whitespace. */
  function TrimEnd(s: string): (r: string)
    ensures |r| <= |s| && r == s[..|r|]
    ensures forall i :: |r| <= i < |s| ==> IsSpace(s[i])
    ensures r == [] || !IsSpace(r[|r| - 1])
  {
    if |s| > 0 && IsSpace(s[|s| - 1]) then TrimEnd(s[..|s| - 1]) else s
  }

  /** `str.strip()`. */
  function Strip(s: string): string {
    TrimEnd(TrimStart(s))
  }

  /** Where `strip()` cuts: the bounds of the slice it keeps. */
  lemma StripBounds(s: string) returns (i: nat, j: nat)
    ensures i <= j <= |s| && Strip(s) == s[i..j]
    ensures forall k :: 0 <= k < i ==> IsSpace(s[k])
    ensures forall k :: j <= k < |s| ==> IsSpace(s[k])
  {
    var t := TrimStart(s);
    i := |s| - |t|;
    var u := TrimEnd(t);
    j := i + |u|;
    assert t == s[i..];
    assert u == t[..|u|] == s[i..][..|u|];
    assert s[i..][..|u|] == s[i..j];
    forall k | j <= k < |s|
      ensures IsSpace(s[k])
    {
      assert s[k] == t[k - i];
    }
  }

  /** A stripped string is a slice of the original with only whitespace cut
      off either side, and neither end of it is whitespace. */
  lemma StripIsTrimmedSlice(s: string)
    ensures exists i, j ::
      (0 <= i <= j <= |s| && Strip(s) == s[i..j]
       && (forall k :: 0 <= k < i ==> IsSpace(s[k]))
       && (forall k :: j <= k < |s| ==> IsSpace(s[k])))
    ensures Strip(s) == [] || (!IsSpace(Strip(s)[0]) && !IsSpace(Strip(s)[|Strip(s)| - 1]))
  {
    var i, j := StripBounds(s);
    var t := TrimStart(s);
    if Strip(s) != [] {
      assert Strip(s)[0] == t[0];
    }
  }

  /** A string whose ends are not whitespace is its own `strip()`. */
  lemma StripOfTrimmed(s: string)
    requires s == [] || (!IsSpace(s[0]) && !IsSpace(s[|s| - 1]))
    ensures Strip(s) == s
  {
  }

  /** `strip()` is idempotent. */
  lemma StripIdempotent(s: string)
    ensures Strip(Strip(s)) == Strip(s)
  {
    StripIsTrimmedSlice(s);
    StripOfTrimmed(Strip(s));
  }

  /** Whitespace added around a string does not survive `strip()`. */
  lemma StripPadded(a: string, s: string, b: string)
    requires forall k :: 0 <= k < |a| ==> IsSpace(a[k])
    requires forall k :: 0 <= k < |b| ==> IsSpace(b[k])
    ensures Strip(a + s + b) == Strip(s)
  {
    assert a + s + b == a + (s + b);
    TrimStartSkipsSpace(a, s + b);
    TrimStartOfConcat(s, b);
    TrimEndDropsSpace(TrimStart(s), b);
  }

  lemma {:induction false} TrimStartSkipsSpace(a: string, s: string)
    requires forall k :: 0 <= k < |a| ==> IsSpace(a[k])
    ensures TrimStart(a + s) == TrimStart(s)
    decreases |a|
  {
    if a != [] {
      assert (a + s)[1..] == a[1..] + s;
      TrimStartSkipsSpace(a[1..], s);
    } else {
      assert a + s == s;
    }
  }

  lemma {:induction false} TrimStartOfConcat(s: string, b: string)
    requires forall k :: 0 <= k < |b| ==> IsSpace(b[k])
    ensures TrimStart(s + b) == TrimStart(s) + b || (TrimStart(s) == [] && TrimStart(s + b) == [])
    decreases |s|
  {
    if s == [] {
      assert s + b == b;
    } else if IsSpace(s[0]) {
      assert (s + b)[0] == s[0];
      assert (s + b)[1..] == s[1..] + b;
      TrimStartOfConcat(s[1..], b);
    } else {
      assert (s + b)[0] == s[0];
    }
  }

  lemma {:induction false} TrimEndDropsSpace(s: string, b: string)
    requires forall k :: 0 <= k < |b| ==> IsSpace(b[k])
    ensures TrimEnd(s + b) == TrimEnd(s)
    decreases |b|
  {
    if b != [] {
      var n := |b| - 1;
      assert (s + b)[..|s + b| - 1] == s + b[..n];
      TrimEndDropsSpace(s, b[..n]);
    } else {
      assert s + b == s;
    }
  }

  /** `str.lower()` on one character, for the ASCII letters. */
  function LowerChar(c: char): char {
    if 'A' <= c <= 'Z' then (c as int + 32) as char else c
  }

  /** `str.lower()` for text whose letters are ASCII. */
  function Lower(s: string): string {
    seq(|s|, i requires 0 <= i < |s| => LowerChar(s[i]))
  }

  /** An occurrence survives lowering. */
  lemma ContainsLowered(s: string, p: string)
    requires Contains(s, p)
    ensures Contains(Lower(s), Lower(p))
  {
    var i :| 0 <= i <= |s| - |p| && OccursAt(s, p, i);
    forall k | 0 <= k < |p|
      ensures Lower(s)[i..i + |p|][k] == Lower(p)[k]
    {
      assert s[i..i + |p|][k] == s[i + k];
    }
    assert Lower(s)[i..i + |p|] == Lower(p);
    assert OccursAt(Lower(s), Lower(p), i);
  }

  /** `p` occurs in any text that has it in the middle. */
  lemma ContainsInMiddle(a: string, p: string, b: string)
    ensures Contains(a + p + b, p)
  {
    assert (a + p + b)[|a|..|a| + |p|] == p;
    assert OccursAt(a + p + b, p, |a|);
  }

  /** Whether any of `ps` occurs in `s`, trying them in order as a `for`
      loop with an early return does. */
  function AnyOccurs(s: string, ps: seq<string>): (r: bool)
    ensures r <==> exists i :: 0 <= i < |ps| && Contains(s, ps[i])
  {
    if ps == [] then false
    else if Contains(s, ps[0]) then true
    else
      var r := AnyOccurs(s, ps[1..]);
      assert forall i :: 1 <= i < |ps| ==> ps[i] == ps[1..][i - 1];
      r
  }

  /** The leftmost occurrence of `p` in `s` at or after `i`: Python's `s.find(p, i)`. */
  function FindFrom(s: string, p: string, i: nat): (r: Option<nat>)
    requires i <= |s|
    ensures r.Some? ==> i <= r.value && OccursAt(s, p, r.value)
    ensures r.Some? ==> forall j :: i <= j < r.value ==> !OccursAt(s, p, j)
    ensures r.None? ==> forall j :: i <= j ==> !OccursAt(s, p, j)
    decreases |s| - i
  {
    if OccursAt(s, p, i) then Some(i)
    else if i == |s| then None
    else FindFrom(s, p, i + 1)
  }

  /** Python's `s.split(sep)` for a non-empty separator: the pieces between
      the non-overlapping occurrences of `sep`, scanning left to right. */
  function SplitOn(s: string, sep: string): (r: seq<string>)
    requires sep != []
    ensures |r| >= 1
    decreases |s|
  {
    match FindFrom(s, sep, 0)
    case None => [s]
    case Some(i) => [s[..i]] + SplitOn(s[i + |sep|..], sep)
  }

  /** Python's `sep.join(parts)`. */
  function Join(sep: string, parts: seq<string>): string {
    if |parts| == 0 then ""
    else if |parts| == 1 then parts[0]
    else parts[0] + sep + Join(sep, parts[1..])
  }

  /** The length of the run of non-whitespace characters that starts `t`. */
  function WordLen(t: string): (n: nat)
    ensures n <= |t| && NoSpace(t[..n]) && (n == |t| || IsSpace(t[n]))
  {
    if t == [] || IsSpace(t[0]) then 0
    else
      var n := 1 + WordLen(t[1..]);
      assert forall k :: 1 <= k < n ==> t[..n][k] == t[1..][..n - 1][k - 1];
      n
  }

  /** Python's `s.split()`: the maximal runs of non-whitespace characters. */
  function Words(s: string): seq<string>
    decreases |s|
  {
    var t := TrimStart(s);
    if t == [] then []
    else
      var n := WordLen(t);
      [t[..n]] + Words(t[n..])
  }

  /** Every word `split()` returns is non-empty and free of whitespace. */
  lemma {:induction false} WordsAreWords(s: string)
    ensures forall i :: 0 <= i < |Words(s)| ==> Words(s)[i] != [] && NoSpace(Words(s)[i])
    decreases |s|
  {
    var t := TrimStart(s);
    if t != [] {
      var n := WordLen(t);
      var w, rest := t[..n], Words(t[n..]);
      assert Words(s) == [w] + rest;
      assert w != [];
      WordsAreWords(t[n..]);
      forall i | 0 <= i < |Words(s)|
        ensures Words(s)[i] != [] && NoSpace(Words(s)[i])
      {
        if i > 0 {
          assert Words(s)[i] == rest[i - 1];
        }
      }
    }
  }

  /** `' '.join(s.split())`: whitespace runs become one space, and the ends lose theirs. */
  function Collapse(s: string): string {
    Join(" ", Words(s))
  }

  /** Text in which every whitespace character is a single ' ' standing
      between two non-whitespace characters. */
  predicate Collapsed(r: string) {
    forall i :: 0 <= i < |r| && IsSpace(r[i]) ==>
      r[i] == ' ' && 0 < i < |r| - 1 && !IsSpace(r[i - 1]) && !IsSpace(r[i + 1])
  }

  /** Joining non-empty, whitespace-free words with single spaces gives
      collapsed text that starts with the first word. */
  lemma {:induction false} JoinWordsCollapsed(ws: seq<string>)
    requires forall i :: 0 <= i < |ws| ==> ws[i] != [] && NoSpace(ws[i])
    ensures Collapsed(Join(" ", ws))
    ensures ws != [] ==> StartsWith(Join(" ", ws), ws[0])
  {
    if |ws| > 1 {
      var rest := Join(" ", ws[1..]);
      JoinWordsCollapsed(ws[1..]);
      var r := Join(" ", ws);
      var w := ws[0];
      assert r == w + " " + rest;
      assert rest[0] == ws[1][0];
      forall i | 0 <= i < |r| && IsSpace(r[i])
        ensures r[i] == ' ' && 0 < i < |r| - 1 && !IsSpace(r[i - 1]) && !IsSpace(r[i + 1])
      {
        if i > |w| {
          assert r[i] == rest[i - |w| - 1];
          assert r[i + 1] == rest[i - |w|];
          assert r[i - 1] == (if i - 1 == |w| then ' ' else rest[i - |w| - 2]);
        }
      }
      assert r[..|w|] == w;
    }
  }

  /** A word followed by whitespace (or nothing) is split off as the first word. */
  lemma WordsOfWordThen(w: string, rest: string)
    requires w != [] && NoSpace(w)
    requires rest == [] || IsSpace(rest[0])
    ensures Words(w + rest) == [w] + Words(rest)
  {
    var t := w + rest;
    assert t[0] == w[0];
    assert TrimStart(t) == t;
    var n := WordLen(t);
    assert forall k :: 0 <= k < |w| ==> t[k] == w[k];
    assert rest != [] ==> t[|w|] == rest[0];
    assert n == |w|;
    assert t[..n] == w && t[n..] == rest;
  }

  lemma WordsSkipsLeadingSpace(s: string)
    ensures Words(" " + s) == Words(s)
  {
    assert (" " + s)[1..] == s;
  }

  /** `split()` undoes the join: the words come back as they were. */
  lemma {:induction false} WordsOfJoin(ws: seq<string>)
    requires forall i :: 0 <= i < |ws| ==> ws[i] != [] && NoSpace(ws[i])
    ensures Words(Join(" ", ws)) == ws
  {
    if |ws| == 1 {
      WordsOfWordThen(ws[0], "");
      assert ws[0] + "" == ws[0];
    } else if |ws| > 1 {
      var w, tail := ws[0], ws[1..];
      assert forall i :: 0 <= i < |tail| ==> tail[i] == ws[i + 1];
      var rest := Join(" ", tail);
      assert Join(" ", ws) == w + " " + rest;
      assert w + " " + rest == w + (" " + rest);
      WordsOfWordThen(w, " " + rest);
      WordsSkipsLeadingSpace(rest);
      WordsOfJoin(tail);
      assert ws == [w] + tail;
    }
  }

  /** The collapsed text has no leading, trailing or repeated whitespace, and
      splitting it again yields the same words as the original. */
  lemma CollapseProperties(s: string)
    ensures Collapsed(Collapse(s))
    ensures Words(Collapse(s)) == Words(s)
  {
    WordsAreWords(s);
    JoinWordsCollapsed(Words(s));
    WordsOfJoin(Words(s));
  }

  /** Collapsing twice is collapsing once. */
  lemma CollapseIdempotent(s: string)
    ensures Collapse(Collapse(s)) == Collapse(s)
  {
    CollapseProperties(s);
  }

  /** Decimal digits of a natural number, as Python's `str()` writes an `int`. */
  function NatToString(n: nat): (r: string)
    ensures r != []
    decreases n
  {
    var d := ['0' + (n % 10) as char];
    if n < 10 then d else NatToString(n / 10) + d
  }

  /** Python's `str()` of an `int`. */
  function IntToString(n: int): (r: string)
    ensures r != []
  {
    if n < 0 then "-" + NatToString(-n) else NatToString(n)
  }

  /** Text without upper-case ASCII letters is its own `lower()`. */
  lemma LowerOfNoUpper(s: string)
    requires forall i :: 0 <= i < |s| ==> !('A' <= s[i] <= 'Z')
    ensures Lower(s) == s
  {
  }

  /** `p` cannot occur in `s` when one of its characters is absent from `s`. */
  lemma MissingCharExcludes(s: string, p: string, m: nat)
    requires m < |p| && forall i :: 0 <= i < |s| ==> s[i] != p[m]
    ensures !Contains(s, p)
  {
    assert forall k :: OccursAt(s, p, k) ==> s[k..k + |p|][m] == s[k + m];
  }
}
