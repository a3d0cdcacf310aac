/**
 * The parts of Python's `str` that the services use, restricted to ASCII:
 * whitespace and `strip`, `join`, `split`, `in`, `lower`, `title`,
 * `capitalize`, slicing with `[:n]` and `str(n)` for a non-negative int.
 */
module Text {
  import opened Wrappers

  /** The ASCII characters for which Python's `str.isspace()` holds. */
  predicate IsSpace(c: char) {
    c == ' ' || ('\t' <= c <= '\r') || ('\U{1C}' <= c <= '\U{1F}')
  }

  predicate AllSpace(s: string) {
    forall i :: 0 <= i < |s| ==> IsSpace(s[i])
  }

  /** What `s.strip()` can return: no whitespace at either end. */
  predicate IsStripped(s: string) {
    s == [] || (!IsSpace(s[0]) && !IsSpace(s[|s| - 1]))
  }

  /** Python's `s.lstrip()`. */
  function LStrip(s: string): (r: string)
    ensures |r| <= |s| && r == s[|s| - |r|..]
    ensures AllSpace(s[..|s| - |r|])
    ensures r == [] || !IsSpace(r[0])
  {
    if s == [] || !IsSpace(s[0]) then s else LStrip(s[1..])
  }

  /** Every character of a blank prefix is blank. */
  lemma BlankPrefixAt(s: string, n: nat, i: nat)
    requires n <= |s| && AllSpace(s[..n])
    ensures i < n ==> IsSpace(s[i])
  {
    if i < n {
      assert s[..n][i] == s[i];
    }
  }

  lemma SpaceAt(s: string, i: nat)
    ensures AllSpace(s) && i < |s| ==> IsSpace(s[i])
  {
  }

  /** `lstrip` removes exactly the blank run in front of the first
    * non-blank character. */
  lemma LStripDrops(s: string, k: nat)
    requires k <= |s| && AllSpace(s[..k])
    requires k == |s| || !IsSpace(s[k])
    ensures LStrip(s) == s[k..]
  {
    var r := LStrip(s);
    var m := |s| - |r|;
    BlankPrefixAt(s, m, k);
    BlankPrefixAt(s, k, m);
    assert m < |s| ==> r[0] == s[m];
    assert m == k;
  }

  /** Python's `s.rstrip()`. */
  function RStrip(s: string): (r: string)
    ensures |r| <= |s| && r == s[..|r|]
    ensures AllSpace(s[|r|..])
    ensures r == [] || !IsSpace(r[|r| - 1])
  {
    if s == [] || !IsSpace(s[|s| - 1]) then s else RStrip(s[..|s| - 1])
  }

  /** Python's `s.strip()`: the stripped text is the non-blank middle of `s`. */
  function Strip(s: string): (r: string)
    ensures IsStripped(r)
    ensures |r| <= |s|
    ensures r == [] <==> AllSpace(s)
  {
    StripFacts(s);
    RStrip(LStrip(s))
  }

  lemma StripFacts(s: string)
    ensures var r := RStrip(LStrip(s));
      IsStripped(r) && |r| <= |s| && (r == [] <==> AllSpace(s))
  {
    var l := LStrip(s);
    var r := RStrip(l);
    var n := |s| - |l|;
    assert |r| > 0 ==> r[0] == l[0];
    assert n < |s| ==> l[0] == s[n];
    if r == [] {
      assert l[0..] == l[..|l|];
      BlankPrefixAt(l, |l|, 0);
      assert l == [];
      forall i | 0 <= i < |s| ensures IsSpace(s[i]) {
        BlankPrefixAt(s, n, i);
      }
    }
    SpaceAt(s, n);
  }

  lemma StripOfStripped(s: string)
    requires IsStripped(s)
    ensures Strip(s) == s
  {
  }

  /** A leading blank makes no difference to `strip`. */
  lemma StripLeadingBlank(s: string)
    requires s != [] && IsSpace(s[0])
    ensures Strip(s) == Strip(s[1..])
  {
    assert LStrip(s) == LStrip(s[1..]);
  }

  /** Stripping a string that starts with a non-blank only trims its tail. */
  lemma StripKeepsFront(s: string)
    requires s != [] && !IsSpace(s[0])
    ensures Strip(s) == RStrip(s)
  {
  }

  /** Python's `sep.join(lines)`. */
  function Join(lines: seq<string>, sep: string): string
  {
    if |lines| == 0 then ""
    else if |lines| == 1 then lines[0]
    else lines[0] + sep + Join(lines[1..], sep)
  }

  /** Python's `s.split(c)` for a one-character separator: never empty. */
  function Split(s: string, c: char): (parts: seq<string>)
    ensures |parts| >= 1
    ensures forall k :: 0 <= k < |parts| ==> c !in parts[k]
  {
    if c !in s then [s]
    else
      var i := FirstIndexOfChar(s, c);
      [s[..i]] + Split(s[i + 1..], c)
  }

  function FirstIndexOfChar(s: string, c: char): (i: nat)
    requires c in s
    ensures i < |s| && s[i] == c && c !in s[..i]
  {
    if s[0] == c then 0 else 1 + FirstIndexOfChar(s[1..], c)
  }

  /** Joining lines that hold no separator and splitting again gives the lines back. */
  lemma {:induction false} SplitJoin(lines: seq<string>, c: char)
    requires |lines| >= 1
    requires forall k :: 0 <= k < |lines| ==> c !in lines[k]
    ensures Split(Join(lines, [c]), c) == lines
  {
    if |lines| == 1 {
    } else {
      var s := Join(lines, [c]);
      var tail := Join(lines[1..], [c]);
      assert s == lines[0] + [c] + tail;
      assert s[|lines[0]|] == c;
      assert c in s;
      var i := FirstIndexOfChar(s, c);
      assert s[..|lines[0]|] == lines[0];
      assert forall k :: 0 <= k < |lines[0]| ==> s[k] == lines[0][k];
      assert i == |lines[0]|;
      assert s[..i] == lines[0];
      assert s[i + 1..] == tail;
      SplitJoin(lines[1..], c);
    }
  }

  /** `sub` occurs in `s` at index `k`. */
  predicate OccursAt(s: string, sub: string, k: nat) {
    k + |sub| <= |s| && s[k..k + |sub|] == sub
  }

  /** Python's `s.find(sub)`, with `None` for -1. */
  function IndexOf(s: string, sub: string): (r: Option<nat>)
    ensures r.Some? ==> OccursAt(s, sub, r.value)
    ensures r.Some? ==> forall k :: 0 <= k < r.value ==> !OccursAt(s, sub, k)
    ensures r.None? ==> forall k :: 0 <= k ==> !OccursAt(s, sub, k)
  {
    IndexOfFrom(s, sub, 0)
  }

  function IndexOfFrom(s: string, sub: string, from: nat): (r: Option<nat>)
    requires forall k :: 0 <= k < from ==> !OccursAt(s, sub, k)
    ensures r.Some? ==> from <= r.value && OccursAt(s, sub, r.value)
    ensures r.Some? ==> forall k :: 0 <= k < r.value ==> !OccursAt(s, sub, k)
    ensures r.None? ==> forall k :: 0 <= k ==> !OccursAt(s, sub, k)
    decreases |s| - from
  {
    if from + |sub| > |s| then None
    else if s[from..from + |sub|] == sub then Some(from)
    else IndexOfFrom(s, sub, from + 1)
  }

  /** Python's `sub in s`. */
  predicate Contains(s: string, sub: string) {
    IndexOf(s, sub).Some?
  }

  lemma ContainsInfix(a: string, b: string, c: string)
    ensures Contains(a + b + c, b)
  {
    var s := a + b + c;
    assert s[|a|..|a| + |b|] == b;
    assert OccursAt(s, b, |a|);
  }

  /** Where the last part of `s.split(sep)` starts. The scan goes left to
    * right from `pos`; the current part began at `start`; a match moves both
    * past the separator, so occurrences never overlap. */
  function LastPartStart(s: string, sep: string, start: nat, pos: nat): (r: nat)
    requires |sep| > 0 && start <= pos <= |s|
    requires forall k :: start <= k < pos ==> !OccursAt(s, sep, k)
    ensures start <= r <= |s|
    ensures r == start || (|sep| <= r && OccursAt(s, sep, r - |sep|))
    ensures forall k :: r <= k ==> !OccursAt(s, sep, k)
    decreases |s| - pos
  {
    if pos + |sep| > |s| then start
    else if s[pos..pos + |sep|] == sep then LastPartStart(s, sep, pos + |sep|, pos + |sep|)
    else LastPartStart(s, sep, start, pos + 1)
  }

  /** Python's `s.split(sep)[-1]`: the text after the last separator that a
    * left-to-right, non-overlapping scan finds (not the same as the last
    * occurrence when occurrences overlap). */
  function AfterLastSplit(s: string, sep: string): (r: string)
    requires |sep| > 0
    ensures |r| <= |s| && r == s[|s| - |r|..]
  {
    s[LastPartStart(s, sep, 0, 0)..]
  }

  /** An occurrence in a suffix is an occurrence in the whole text. */
  lemma OccursInSuffix(s: string, sub: string, m: nat, k: nat)
    requires m <= |s|
    ensures OccursAt(s[m..], sub, k) <==> OccursAt(s, sub, m + k)
  {
    if k + |sub| <= |s| - m {
      assert s[m..][k..k + |sub|] == s[m + k..m + k + |sub|];
    }
  }

  /** The last part holds no separator; it is the whole text exactly when the
    * text holds none; otherwise it directly follows an occurrence. */
  lemma AfterLastSplitFacts(s: string, sep: string)
    requires |sep| > 0
    ensures var r := AfterLastSplit(s, sep);
      && !Contains(r, sep)
      && (!Contains(s, sep) ==> r == s)
      && (Contains(s, sep) ==>
            |r| + |sep| <= |s| && s[|s| - |r| - |sep|..|s| - |r|] == sep)
  {
    var m := LastPartStart(s, sep, 0, 0);
    var r := s[m..];
    forall k: nat ensures !OccursAt(r, sep, k) {
      OccursInSuffix(s, sep, m, k);
    }
    if Contains(s, sep) {
      var k := IndexOf(s, sep).value;
      assert OccursAt(s, sep, k);
      assert m != 0;
    }
  }

  /** With exactly one occurrence, the last part is what follows it. */
  lemma AfterOnlyOccurrence(s: string, sep: string, p: nat)
    requires |sep| > 0 && OccursAt(s, sep, p)
    requires forall k :: OccursAt(s, sep, k) ==> k == p
    ensures AfterLastSplit(s, sep) == s[p + |sep|..]
  {
    var m := LastPartStart(s, sep, 0, 0);
    assert p < m;
  }

  /** A character of `sub` that `s` lacks rules out every occurrence. */
  lemma AbsentCharNotContained(s: string, sub: string, j: nat)
    requires j < |sub| && sub[j] !in s
    ensures !Contains(s, sub)
  {
    forall k: nat ensures !OccursAt(s, sub, k) {
      if k + |sub| <= |s| {
        assert s[k..k + |sub|][j] == s[k + j];
        assert s[k + j] in s;
      }
    }
  }

  /** An occurrence at `k` is the first one when the separator's first
    * character does not appear before `k`. */
  lemma FirstOccurrence(s: string, sub: string, k: nat)
    requires OccursAt(s, sub, k) && |sub| > 0 && sub[0] !in s[..k]
    ensures IndexOf(s, sub) == Some(k)
  {
    forall m: nat | m < k ensures !OccursAt(s, sub, m) {
      assert s[..k][m] == s[m];
      if m + |sub| <= |s| {
        assert s[m..m + |sub|][0] == s[m];
      }
    }
  }

  /** Python's `s[:n]`. */
  function Take(s: string, n: nat): (r: string)
    ensures |r| == if |s| <= n then |s| else n
    ensures r == s[..|r|]
  {
    if |s| <= n then s else s[..n]
  }

  predicate IsUpperAscii(c: char) { 'A' <= c <= 'Z' }
  predicate IsLowerAscii(c: char) { 'a' <= c <= 'z' }
  predicate IsLetterAscii(c: char) { IsUpperAscii(c) || IsLowerAscii(c) }

  function ToLowerChar(c: char): (d: char)
    ensures IsLetterAscii(c) ==> IsLowerAscii(d)
    ensures !IsUpperAscii(c) ==> d == c
  {
    if IsUpperAscii(c) then (c as int + 32) as char else c
  }

  function ToUpperChar(c: char): (d: char)
    ensures IsLetterAscii(c) ==> IsUpperAscii(d)
    ensures !IsLowerAscii(c) ==> d == c
  {
    if IsLowerAscii(c) then (c as int - 32) as char else c
  }

  /** Python's `s.lower()` on ASCII letters. */
  function Lower(s: string): (r: string)
    ensures |r| == |s|
    ensures forall i :: 0 <= i < |s| ==> r[i] == ToLowerChar(s[i])
  {
    if s == [] then [] else [ToLowerChar(s[0])] + Lower(s[1..])
  }

  /** `rstrip` keeps every character up to the last non-blank one. */
  lemma {:induction false} RStripKeeps(s: string, i: nat)
    requires i < |s| && !IsSpace(s[i])
    ensures i < |RStrip(s)|
    decreases |s|
  {
    if IsSpace(s[|s| - 1]) {
      assert s[..|s| - 1][i] == s[i];
      RStripKeeps(s[..|s| - 1], i);
    }
  }

  /** Lower-casing text without capitals changes nothing. */
  lemma LowerIdentity(s: string)
    requires forall i :: 0 <= i < |s| ==> !IsUpperAscii(s[i])
    ensures Lower(s) == s
  {
  }

  /** Python's `s.title()` on ASCII: a letter is upper-cased when the character
    * before it is not a letter and lower-cased when it is. */
  function Title(s: string): (r: string)
    ensures |r| == |s|
    ensures forall i :: 0 <= i < |s| && !IsLetterAscii(s[i]) ==> r[i] == s[i]
    ensures forall i :: 0 <= i < |s| && IsLetterAscii(s[i]) ==>
      r[i] == if i > 0 && IsLetterAscii(s[i - 1]) then ToLowerChar(s[i]) else ToUpperChar(s[i])
  {
    TitleAfter(s, false)
  }

  function TitleAfter(s: string, prevCased: bool): (r: string)
    ensures |r| == |s|
    ensures forall i :: 0 <= i < |s| && !IsLetterAscii(s[i]) ==> r[i] == s[i]
    ensures forall i :: 0 < i < |s| && IsLetterAscii(s[i]) ==>
      r[i] == if IsLetterAscii(s[i - 1]) then ToLowerChar(s[i]) else ToUpperChar(s[i])
    ensures |s| > 0 && IsLetterAscii(s[0]) ==>
      r[0] == if prevCased then ToLowerChar(s[0]) else ToUpperChar(s[0])
  {
    if s == [] then []
    else if IsLetterAscii(s[0]) then
      [if prevCased then ToLowerChar(s[0]) else ToUpperChar(s[0])] + TitleAfter(s[1..], true)
    else [s[0]] + TitleAfter(s[1..], false)
  }

  /** Python's `s.capitalize()` on ASCII. */
  function Capitalize(s: string): (r: string)
    ensures |r| == |s|
    ensures |s| > 0 ==> r[0] == ToUpperChar(s[0])
    ensures forall i :: 0 < i < |s| ==> r[i] == ToLowerChar(s[i])
  {
    if s == [] then [] else [ToUpperChar(s[0])] + Lower(s[1..])
  }

  predicate IsDigit(c: char) { '0' <= c <= '9' }

  /** Python's `str(n)` for `n >= 0`: decimal digits, no leading zero. */
  function NatToString(n: nat): (r: string)
    ensures |r| > 0 && forall i :: 0 <= i < |r| ==> IsDigit(r[i])
    ensures n > 0 ==> r[0] != '0'
  {
    if n < 10 then [('0' as int + n) as char]
    else NatToString(n / 10) + [('0' as int + n % 10) as char]
  }
}
