/**
 * The Python string operations the agent relies on, as functions on `string`:
 * `lower`, `title`, `in`, `split(sep, 1)`, `split()`, `strip`, `rstrip(chars)`,
 * `sep.join` and `str` of an integer. Case mapping covers ASCII letters only and
 * whitespace is the ASCII set that Python's `str.isspace` accepts.
 */
module Text {
  import opened Wrappers

  predicate IsUpper(c: char) { 'A' <= c <= 'Z' }

  predicate IsLowerCase(c: char) { 'a' <= c <= 'z' }

  /** The cased characters of `str.title` (ASCII letters). */
  predicate IsLetter(c: char) { IsUpper(c) || IsLowerCase(c) }

  function LowerChar(c: char): (r: char)
    ensures !IsUpper(r)
  {
    if IsUpper(c) then (c as int + 32) as char else c
  }

  function UpperChar(c: char): (r: char)
    ensures !IsLowerCase(r)
  {
    if IsLowerCase(c) then (c as int - 32) as char else c
  }

  /** `s.lower()` */
  function Lower(s: string): (r: string)
    ensures |r| == |s|
    ensures forall i :: 0 <= i < |s| ==> r[i] == LowerChar(s[i])
  {
    seq(|s|, i requires 0 <= i < |s| => LowerChar(s[i]))
  }

  /** Lower-casing leaves a run without capitals where it is. */
  lemma LowerKeepsRun(query: string, i: nat, w: string)
    requires i + |w| <= |query| && query[i..i + |w|] == w
    requires forall k :: 0 <= k < |w| ==> !IsUpper(w[k])
    ensures Lower(query)[i..i + |w|] == w
  {
    forall k | 0 <= k < |w|
      ensures Lower(query)[i..i + |w|][k] == w[k]
    {
      assert query[i + k] == w[k];
    }
  }

  /**
   * `s.title()` with the flag saying whether the previous character was cased:
   * a letter is upper-cased at the start of a run of letters and lower-cased
   * inside one, so "what's" becomes "What'S" exactly as in Python.
   */
  function TitleFrom(s: string, afterLetter: bool): string
    decreases |s|
  {
    if s == [] then []
    else if IsLetter(s[0]) then
      [if afterLetter then LowerChar(s[0]) else UpperChar(s[0])] + TitleFrom(s[1..], true)
    else
      [s[0]] + TitleFrom(s[1..], false)
  }

  /** Title-casing keeps the length, keeps letters letters, and leaves every other character alone. */
  lemma {:induction false} TitleFromFacts(s: string, afterLetter: bool)
    ensures |TitleFrom(s, afterLetter)| == |s|
    ensures forall i :: 0 <= i < |s| ==> (IsLetter(TitleFrom(s, afterLetter)[i]) <==> IsLetter(s[i]))
    ensures forall i :: 0 <= i < |s| && !IsLetter(s[i]) ==> TitleFrom(s, afterLetter)[i] == s[i]
    decreases |s|
  {
    if s != [] {
      var next := IsLetter(s[0]);
      var head := if next then (if afterLetter then LowerChar(s[0]) else UpperChar(s[0])) else s[0];
      var tail := TitleFrom(s[1..], next);
      TitleFromFacts(s[1..], next);
      assert TitleFrom(s, afterLetter) == [head] + tail;
      assert IsLetter(head) <==> next;
      forall i | 1 <= i < |s|
        ensures TitleFrom(s, afterLetter)[i] == tail[i - 1] && s[i] == s[1..][i - 1]
      {
      }
    }
  }

  /** A letter lower-cased after a letter and upper-cased otherwise. */
  function CaseAfter(afterLetter: bool, c: char): char {
    if afterLetter then LowerChar(c) else UpperChar(c)
  }

  /**
   * The case rule of title-casing: a letter right after a letter is
   * lower-cased, and any other letter (the first of a run) is upper-cased.
   */
  lemma {:induction false} TitleFromCase(s: string, afterLetter: bool)
    ensures |TitleFrom(s, afterLetter)| == |s|
    ensures |s| > 0 && IsLetter(s[0]) ==> TitleFrom(s, afterLetter)[0] == CaseAfter(afterLetter, s[0])
    ensures forall i :: 0 < i < |s| && IsLetter(s[i]) ==> TitleFrom(s, afterLetter)[i] == CaseAfter(IsLetter(s[i - 1]), s[i])
    decreases |s|
  {
    if s != [] {
      var next := IsLetter(s[0]);
      var head := if next then (if afterLetter then LowerChar(s[0]) else UpperChar(s[0])) else s[0];
      var tail := TitleFrom(s[1..], next);
      TitleFromCase(s[1..], next);
      assert TitleFrom(s, afterLetter) == [head] + tail;
      forall i | 1 <= i < |s|
        ensures TitleFrom(s, afterLetter)[i] == tail[i - 1] && s[i] == s[1..][i - 1]
      {
      }
    }
  }

  /** `s.title()` */
  function Title(s: string): (r: string)
    ensures |r| == |s|
    ensures forall i :: 0 <= i < |s| ==> (IsLetter(r[i]) <==> IsLetter(s[i]))
    ensures forall i :: 0 <= i < |s| && !IsLetter(s[i]) ==> r[i] == s[i]
    // the first letter of every run of letters is upper-cased, the others lower-cased
    ensures forall i :: 0 <= i < |s| && IsLetter(s[i]) ==>
      r[i] == if i > 0 && IsLetter(s[i - 1]) then LowerChar(s[i]) else UpperChar(s[i])
  {
    TitleFromFacts(s, false);
    TitleFromCase(s, false);
    TitleFrom(s, false)
  }

  /** The characters `str.split()` and `str.strip()` treat as whitespace. */
  const Whitespace: set<char> :=
    {' ', '\t', '\n', '\r', '\U{B}', '\U{C}', '\U{1C}', '\U{1D}', '\U{1E}', '\U{1F}'}

  predicate IsSpace(c: char) { c in Whitespace }

  // ---------------------------------------------------------------------------
  // Substring search: `p in s` and the first occurrence used by `s.split(p, 1)`.
  // ---------------------------------------------------------------------------

  predicate MatchAt(s: string, p: string, i: nat) {
    i + |p| <= |s| && s[i..i + |p|] == p
  }

  /** The first index at or after `i` where `p` occurs in `s`. */
  function FindFrom(s: string, p: string, i: nat): (r: Option<nat>)
    ensures r.Some? ==> i <= r.value && MatchAt(s, p, r.value)
    ensures r.Some? ==> forall j :: i <= j < r.value ==> !MatchAt(s, p, j)
    ensures r.None? ==> forall j :: i <= j ==> !MatchAt(s, p, j)
    decreases |s| - i
  {
    if i + |p| > |s| then None
    else if MatchAt(s, p, i) then Some(i)
    else FindFrom(s, p, i + 1)
  }

  /** The first index where `p` occurs in `s`. */
  function Find(s: string, p: string): (r: Option<nat>)
    ensures r.Some? ==> MatchAt(s, p, r.value) && forall j :: 0 <= j < r.value ==> !MatchAt(s, p, j)
    ensures r.None? ==> forall j :: 0 <= j ==> !MatchAt(s, p, j)
  {
    FindFrom(s, p, 0)
  }

  /** Python's `p in s`. */
  predicate Contains(s: string, p: string) {
    Find(s, p).Some?
  }

  lemma MatchAtContains(s: string, p: string, i: nat)
    requires MatchAt(s, p, i)
    ensures Contains(s, p)
  {
  }

  /** A substring of a substring is a substring. */
  lemma ContainsTransitive(s: string, q: string, p: string)
    requires Contains(s, q) && Contains(q, p)
    ensures Contains(s, p)
  {
    var i := Find(s, q).value;
    var j := Find(q, p).value;
    assert MatchAt(s, q, i) && MatchAt(q, p, j);
    forall k | 0 <= k < |p|
      ensures s[i + j + k] == p[k]
    {
      assert p[k] == q[j..j + |p|][k] == q[j + k];
      assert q[j + k] == s[i..i + |q|][j + k] == s[i + j + k];
    }
    assert s[i + j..i + j + |p|] == p;
    MatchAtContains(s, p, i + j);
  }

  lemma ContainsMiddle(a: string, b: string, c: string)
    ensures Contains(a + b + c, b)
  {
    assert (a + b + c)[|a|..|a| + |b|] == b;
    MatchAtContains(a + b + c, b, |a|);
  }

  /** Every character of a contained string occurs in the containing one. */
  lemma ContainsHasChars(s: string, p: string, k: nat)
    requires Contains(s, p) && k < |p|
    ensures p[k] in s
  {
    var i := Find(s, p).value;
    assert s[i + k] == s[i..i + |p|][k];
  }

  /** A string not holding the first character of `p` in `s[i..k]` has no match of `p` starting there. */
  lemma {:induction false} SkipAbsentHead(s: string, p: string, i: nat, k: nat)
    requires |p| > 0 && i <= k <= |s|
    requires p[0] !in s[i..k]
    ensures FindFrom(s, p, i) == FindFrom(s, p, k)
    decreases k - i
  {
    if i < k {
      assert s[i] == s[i..k][0];
      assert s[i + 1..k] == s[i..k][1..];
      SkipAbsentHead(s, p, i + 1, k);
    }
  }

  /** A position where `p` does not match can be skipped. */
  lemma SkipMismatch(s: string, p: string, i: nat)
    requires i + |p| <= |s| && !MatchAt(s, p, i)
    ensures FindFrom(s, p, i) == FindFrom(s, p, i + 1)
  {
  }

  /** `p` first occurs right after `a` when `a` lacks the first character of `p` and `b` starts with `p`. */
  lemma FindAfterPrefix(a: string, b: string, p: string)
    requires |p| > 0 && p[0] !in a
    requires |p| <= |b| && b[..|p|] == p
    ensures Find(a + b, p) == Some(|a|)
  {
    var s := a + b;
    assert s[0..|a|] == a;
    SkipAbsentHead(s, p, 0, |a|);
    assert s[|a|..|a| + |p|] == b[..|p|];
  }

  /** When the first character of `p` is not in `a`, no occurrence of `p` starts inside `a`. */
  lemma NoMatchInsidePrefix(a: string, p: string)
    requires |p| > 0 && p[0] !in a
    ensures !Contains(a + p[..|p| - 1], p)
  {
    var t := a + p[..|p| - 1];
    assert t[0..|a|] == a;
    SkipAbsentHead(t, p, 0, |a|);
  }

  /** `p` is absent when its first character occurs only at `i`, and `p` does not match there. */
  lemma AbsentWithOneHead(s: string, p: string, i: nat)
    requires |p| > 0 && i < |s|
    requires p[0] !in s[..i] && p[0] !in s[i + 1..]
    requires !MatchAt(s, p, i)
    ensures !Contains(s, p)
  {
    assert s[0..i] == s[..i];
    SkipAbsentHead(s, p, 0, i);
    if i + |p| <= |s| {
      SkipMismatch(s, p, i);
    }
    assert s[i + 1..|s|] == s[i + 1..];
    SkipAbsentHead(s, p, i + 1, |s|);
  }

  /** A string lacking one of the characters of `p` does not contain `p`. */
  lemma AbsentCharNotContained(s: string, p: string, k: nat)
    requires k < |p| && p[k] !in s
    ensures !Contains(s, p)
  {
    if Contains(s, p) {
      ContainsHasChars(s, p, k);
    }
  }

  /** The text after the first occurrence of `p`: `s.split(p, 1)[1]` when `p in s`. */
  function AfterFirst(s: string, p: string): (r: Option<string>)
    ensures r.Some? <==> Contains(s, p)
    ensures r.Some? ==> exists i: nat :: MatchAt(s, p, i) && r.value == s[i + |p|..]
    // the occurrence used is the first one
    ensures r.Some? ==> Find(s, p).Some? && r.value == s[Find(s, p).value + |p|..]
  {
    match Find(s, p)
    case None => None
    case Some(i) => Some(s[i + |p|..])
  }

  // ---------------------------------------------------------------------------
  // Stripping and splitting.
  // ---------------------------------------------------------------------------

  /** `s.rstrip(chars)` for the character set `cs`. */
  function RStripSet(s: string, cs: set<char>): (r: string)
    ensures |r| <= |s| && r == s[..|r|]
    ensures forall k :: |r| <= k < |s| ==> s[k] in cs
    ensures r == [] || r[|r| - 1] !in cs
    decreases |s|
  {
    if s != [] && s[|s| - 1] in cs then RStripSet(s[..|s| - 1], cs) else s
  }

  /** `s.lstrip(chars)` for the character set `cs`. */
  function LStripSet(s: string, cs: set<char>): (r: string)
    ensures |r| <= |s| && r == s[|s| - |r|..]
    ensures forall k :: 0 <= k < |s| - |r| ==> s[k] in cs
    ensures r == [] || r[0] !in cs
    decreases |s|
  {
    if s != [] && s[0] in cs then LStripSet(s[1..], cs) else s
  }

  /** `s.strip()` */
  function Strip(s: string): string {
    LStripSet(RStripSet(s, Whitespace), Whitespace)
  }

  /** The end of the run of non-whitespace characters that starts at `i`. */
  function TokenEnd(s: string, i: nat): (j: nat)
    requires i <= |s|
    ensures i <= j <= |s|
    ensures forall k :: i <= k < j ==> !IsSpace(s[k])
    ensures j == |s| || IsSpace(s[j])
    decreases |s| - i
  {
    if i == |s| || IsSpace(s[i]) then i else TokenEnd(s, i + 1)
  }

  /** A string starting with whitespace is all whitespace exactly when its rest is. */
  lemma AllSpaceShift(s: string)
    requires |s| > 0 && IsSpace(s[0])
    ensures (forall k :: 0 <= k < |s| ==> IsSpace(s[k])) <==> (forall k :: 0 <= k < |s[1..]| ==> IsSpace(s[1..][k]))
  {
    assert forall k :: 1 <= k < |s| ==> s[k] == s[1..][k - 1];
  }

  /** `s.split()`: the maximal runs of non-whitespace characters, in order. */
  function Words(s: string): (ws: seq<string>)
    ensures forall k :: 0 <= k < |ws| ==> |ws[k]| > 0
    ensures forall k, j :: 0 <= k < |ws| && 0 <= j < |ws[k]| ==> !IsSpace(ws[k][j])
    decreases |s|
  {
    if s == [] then []
    else if IsSpace(s[0]) then Words(s[1..])
    else
      var n := TokenEnd(s, 0);
      [s[..n]] + Words(s[n..])
  }

  /** `s.split()` is empty exactly when `s` is all whitespace. */
  lemma {:induction false} WordsEmptyIff(s: string)
    ensures Words(s) == [] <==> forall k :: 0 <= k < |s| ==> IsSpace(s[k])
    decreases |s|
  {
    if s != [] && IsSpace(s[0]) {
      AllSpaceShift(s);
      WordsEmptyIff(s[1..]);
    }
  }

  predicate NoSpace(w: string) {
    forall k :: 0 <= k < |w| ==> !IsSpace(w[k])
  }

  /** A string that does not start or end with whitespace is left alone by `strip()`. */
  lemma StripUnchanged(s: string)
    requires s == [] || (!IsSpace(s[0]) && !IsSpace(s[|s| - 1]))
    ensures Strip(s) == s
  {
    assert RStripSet(s, Whitespace) == s;
  }

  lemma {:induction false} TokenEndRun(s: string, i: nat, j: nat)
    requires i <= j <= |s|
    requires forall k :: i <= k < j ==> !IsSpace(s[k])
    requires j == |s| || IsSpace(s[j])
    ensures TokenEnd(s, i) == j
    decreases j - i
  {
    if i < j {
      TokenEndRun(s, i + 1, j);
    }
  }

  /** A word followed by nothing or by whitespace is the first word of the string. */
  lemma WordsCons(w: string, rest: string)
    requires |w| > 0 && NoSpace(w)
    requires rest == [] || IsSpace(rest[0])
    ensures Words(w + rest) == [w] + Words(rest)
  {
    var s := w + rest;
    TokenEndRun(s, 0, |w|);
    assert s[..|w|] == w;
    assert s[|w|..] == rest;
  }

  /** Leading whitespace is skipped by `split()`. */
  /** A non-empty text without whitespace is one word. */
  lemma WordsOfWord(w: string)
    requires |w| > 0 && NoSpace(w)
    ensures Words(w) == [w]
  {
    WordsCons(w, "");
    assert w + "" == w;
  }

  lemma WordsSkipSpace(c: char, rest: string)
    requires IsSpace(c)
    ensures Words([c] + rest) == Words(rest)
  {
    assert ([c] + rest)[1..] == rest;
  }

  // ---------------------------------------------------------------------------
  // Joining, splitting on a separator, and integer rendering.
  // ---------------------------------------------------------------------------

  /** `sep.join(parts)` */
  function Join(parts: seq<string>, sep: string): (r: string)
    decreases |parts|
  {
    if parts == [] then ""
    else if |parts| == 1 then parts[0]
    else parts[0] + sep + Join(parts[1..], sep)
  }

  lemma JoinSingle(s: string, sep: string)
    ensures Join([s], sep) == s
  {
  }

  /** Every part reappears verbatim inside the joined string. */
  lemma {:induction false} JoinContainsPart(parts: seq<string>, sep: string, k: nat)
    requires k < |parts|
    ensures Contains(Join(parts, sep), parts[k])
    decreases |parts|
  {
    if |parts| == 1 {
      ContainsMiddle("", parts[0], "");
      assert "" + parts[0] + "" == parts[0];
    } else if k == 0 {
      ContainsMiddle("", parts[0], sep + Join(parts[1..], sep));
      assert "" + parts[0] + (sep + Join(parts[1..], sep)) == Join(parts, sep);
    } else {
      JoinContainsPart(parts[1..], sep, k - 1);
      var rest := Join(parts[1..], sep);
      var i := Find(rest, parts[k]).value;
      var pre := parts[0] + sep;
      assert Join(parts, sep) == pre + rest;
      assert (pre + rest)[|pre| + i..|pre| + i + |parts[k]|] == rest[i..i + |parts[k]|];
      MatchAtContains(Join(parts, sep), parts[k], |pre| + i);
    }
  }

  /** Appending a part to a non-empty join appends the separator and the part: the order of the parts is kept. */
  lemma {:induction false} JoinSnoc(parts: seq<string>, x: string, sep: string)
    requires |parts| > 0
    ensures Join(parts + [x], sep) == Join(parts, sep) + sep + x
    decreases |parts|
  {
    assert (parts + [x])[0] == parts[0];
    assert (parts + [x])[1..] == parts[1..] + [x];
    if |parts| > 1 {
      JoinSnoc(parts[1..], x, sep);
    }
  }

  /** The first element of a non-empty join is a prefix of the result. */
  lemma JoinStartsWithFirst(parts: seq<string>, sep: string)
    requires |parts| > 0
    ensures |parts[0]| <= |Join(parts, sep)| && Join(parts, sep)[..|parts[0]|] == parts[0]
  {
  }

  /** The position of the first occurrence of `c` in `s`. */
  function IndexOf(s: string, c: char): (i: nat)
    requires c in s
    ensures i < |s| && s[i] == c && c !in s[..i]
  {
    if s[0] == c then 0
    else
      assert c in s[1..];
      var j := IndexOf(s[1..], c);
      assert s[..j + 1] == [s[0]] + s[1..][..j];
      j + 1
  }

  /** `s.split(c)` for a one-character separator. */
  function SplitOn(s: string, c: char): (parts: seq<string>)
    ensures |parts| >= 1
    decreases |s|
  {
    if c !in s then [s]
    else
      var i := IndexOf(s, c);
      [s[..i]] + SplitOn(s[i + 1..], c)
  }

  /** Joining parts free of `c` with `c` and splitting on `c` gives the parts back. */
  lemma {:induction false} SplitJoin(parts: seq<string>, c: char)
    requires |parts| >= 1
    requires forall k :: 0 <= k < |parts| ==> c !in parts[k]
    ensures SplitOn(Join(parts, [c]), c) == parts
    decreases |parts|
  {
    if |parts| > 1 {
      var rest := Join(parts[1..], [c]);
      var s := Join(parts, [c]);
      assert s == parts[0] + [c] + rest;
      assert s[|parts[0]|] == c;
      assert s[..|parts[0]|] == parts[0];
      assert c in s;
      assert IndexOf(s, c) == |parts[0]|;
      assert s[|parts[0]| + 1..] == rest;
      SplitJoin(parts[1..], c);
    }
  }

  predicate IsDigit(c: char) { '0' <= c <= '9' }

  function DigitChar(d: nat): (c: char)
    requires d < 10
    ensures IsDigit(c)
  {
    "0123456789"[d]
  }

  /** `str(n)` for a natural number. */
  function NatToString(n: nat): (r: string)
    ensures |r| >= 1
    ensures forall k :: 0 <= k < |r| ==> IsDigit(r[k])
    decreases n
  {
    if n < 10 then [DigitChar(n)] else NatToString(n / 10) + [DigitChar(n % 10)]
  }

  /** `str(i)` for an integer. */
  function IntToString(i: int): (r: string)
    ensures |r| >= 1
    ensures forall k :: 0 <= k < |r| ==> IsDigit(r[k]) || r[k] == '-'
    ensures i >= 0 ==> r[0] != '-'
  {
    if i < 0 then "-" + NatToString(-i) else NatToString(i)
  }
}
