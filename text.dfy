/**
 * String helpers with the meaning JavaScript gives them in the source:
 * truthiness of optional strings and `a || b`, `/\D/g` (non-digits), `/\s+/g`
 * (runs of whitespace), `String.prototype.trim`, a literal global replace and
 * ASCII upper-casing.
 */
module Text {
  import opened Wrappers

  /** An optional string value is truthy when present and non-empty. */
  predicate Truthy(o: Option<string>) {
    o.Some? && o.value != ""
  }

  /** JavaScript `o || fallback` for an optional string. */
  function Or(o: Option<string>, fallback: string): (r: string)
    ensures Truthy(o) ==> r == o.value
    ensures !Truthy(o) ==> r == fallback
    ensures fallback != "" ==> r != ""
  {
    if Truthy(o) then o.value else fallback
  }

  predicate OccursAt(t: string, pat: string, i: nat) {
    i + |pat| <= |t| && t[i..i + |pat|] == pat
  }

  /** JavaScript `t.includes(pat)`. */
  predicate Contains(t: string, pat: string) {
    exists i: nat | i <= |t| :: OccursAt(t, pat, i)
  }

  // ---------------------------------------------------------------- digits

  predicate IsDigit(c: char) {
    '0' <= c <= '9'
  }

  predicate AllDigits(s: string) {
    forall i :: 0 <= i < |s| ==> IsDigit(s[i])
  }

  /** `s.replace(/\D/g, '')`: the digits of s, in order. */
  function DigitsOnly(s: string): (r: string)
    ensures AllDigits(r)
    ensures |r| <= |s|
  {
    if s == [] then []
    else (if IsDigit(s[0]) then [s[0]] else []) + DigitsOnly(s[1..])
  }

  lemma {:induction false} DigitsOnlyAppend(a: string, b: string)
    ensures DigitsOnly(a + b) == DigitsOnly(a) + DigitsOnly(b)
  {
    if a == [] {
      assert a + b == b;
    } else {
      assert (a + b)[1..] == a[1..] + b;
      DigitsOnlyAppend(a[1..], b);
    }
  }

  lemma {:induction false} DigitsOnlyOfDigits(s: string)
    requires AllDigits(s)
    ensures DigitsOnly(s) == s
  {
    if s != [] {
      DigitsOnlyOfDigits(s[1..]);
    }
  }

  lemma {:induction false} DigitsOnlyNoDigits(s: string)
    requires forall i :: 0 <= i < |s| ==> !IsDigit(s[i])
    ensures DigitsOnly(s) == ""
  {
    if s != [] {
      DigitsOnlyNoDigits(s[1..]);
    }
  }

  // ------------------------------------------------------------ whitespace

  /** ECMAScript WhiteSpace and LineTerminator code points (what `\s` and `trim` match). */
  predicate IsSpace(c: char) {
    c == '\t' || c == '\n' || c == '\U{000B}' || c == '\U{000C}' || c == '\r' || c == ' '
    || c == '\U{00A0}' || c == '\U{1680}' || ('\U{2000}' <= c <= '\U{200A}')
    || c == '\U{2028}' || c == '\U{2029}' || c == '\U{202F}' || c == '\U{205F}'
    || c == '\U{3000}' || c == '\U{FEFF}'
  }

  predicate NoSpace(s: string) {
    forall i :: 0 <= i < |s| ==> !IsSpace(s[i])
  }

  /** Drops the whitespace run at the front of s. */
  function DropSpaces(s: string): (r: string)
    ensures |r| <= |s| && r == s[|s| - |r|..]
    ensures r == [] || !IsSpace(r[0])
    ensures s != [] && IsSpace(s[0]) ==> |r| < |s|
  {
    if s != [] && IsSpace(s[0]) then DropSpaces(s[1..]) else s
  }

  /** `s.replace(/\s+/g, rep)`: every maximal whitespace run becomes one copy of rep. */
  function ReplaceSpaceRuns(s: string, rep: string): string
    decreases |s|
  {
    if s == [] then []
    else if IsSpace(s[0]) then rep + ReplaceSpaceRuns(DropSpaces(s), rep)
    else [s[0]] + ReplaceSpaceRuns(s[1..], rep)
  }

  lemma {:induction false} ReplaceSpaceRunsNoSpace(s: string, rep: string)
    requires NoSpace(rep)
    ensures NoSpace(ReplaceSpaceRuns(s, rep))
    decreases |s|
  {
    if s == [] {
    } else if IsSpace(s[0]) {
      ReplaceSpaceRunsNoSpace(DropSpaces(s), rep);
    } else {
      ReplaceSpaceRunsNoSpace(s[1..], rep);
    }
  }

  lemma {:induction false} ReplaceSpaceRunsIdentity(s: string, rep: string)
    requires NoSpace(s)
    ensures ReplaceSpaceRuns(s, rep) == s
  {
    if s != [] {
      ReplaceSpaceRunsIdentity(s[1..], rep);
    }
  }

  /** Leading whitespace removed. */
  function TrimStart(s: string): (r: string)
    ensures r == [] || !IsSpace(r[0])
    ensures |r| <= |s|
  {
    if s != [] && IsSpace(s[0]) then TrimStart(s[1..]) else s
  }

  /** Trailing whitespace removed. */
  function TrimEnd(s: string): (r: string)
    ensures r == [] || !IsSpace(r[|r| - 1])
    ensures |r| <= |s|
  {
    if s != [] && IsSpace(s[|s| - 1]) then TrimEnd(s[..|s| - 1]) else s
  }

  /** `String.prototype.trim`. */
  function Trim(s: string): (r: string)
    ensures |r| <= |s|
  {
    TrimEnd(TrimStart(s))
  }

  /** A character beyond the Basic Multilingual Plane: JavaScript stores it as two UTF-16 code units. */
  predicate Astral(c: char) {
    c as int > 0xFFFF
  }

  /** JavaScript's `s.length`: the number of UTF-16 code units of s. */
  function Utf16Length(s: string): (n: nat)
    ensures |s| <= n <= 2 * |s|
    ensures (forall i :: 0 <= i < |s| ==> !Astral(s[i])) ==> n == |s|
    ensures (forall i :: 0 <= i < |s| ==> Astral(s[i])) ==> n == 2 * |s|
  {
    if s == [] then 0 else (if Astral(s[0]) then 2 else 1) + Utf16Length(s[1..])
  }

  predicate NoOuterSpace(s: string) {
    s == [] || (!IsSpace(s[0]) && !IsSpace(s[|s| - 1]))
  }

  /** TrimStart keeps a suffix of s and drops only whitespace before it. */
  lemma {:induction false} TrimStartIsSuffix(s: string)
    ensures TrimStart(s) == s[|s| - |TrimStart(s)|..]
    ensures forall k :: 0 <= k < |s| - |TrimStart(s)| ==> IsSpace(s[k])
  {
    if s != [] && IsSpace(s[0]) {
      TrimStartIsSuffix(s[1..]);
    }
  }

  /** TrimEnd keeps a prefix of s and drops only whitespace after it. */
  lemma {:induction false} TrimEndIsPrefix(s: string)
    ensures TrimEnd(s) == s[..|TrimEnd(s)|]
    ensures forall k :: |TrimEnd(s)| <= k < |s| ==> IsSpace(s[k])
  {
    if s != [] && IsSpace(s[|s| - 1]) {
      TrimEndIsPrefix(s[..|s| - 1]);
    }
  }

  /**
   * Trimming keeps the slice s[i..j] with no outer whitespace, and removes
   * only whitespace: everything before i and from j on is whitespace.
   */
  lemma {:induction false} TrimmedHasNoOuterSpace(s: string)
    ensures NoOuterSpace(Trim(s))
    ensures exists i, j :: 0 <= i <= j <= |s| && Trim(s) == s[i..j]
    ensures var i := |s| - |TrimStart(s)|; var j := i + |Trim(s)|;
            && 0 <= i <= j <= |s| && Trim(s) == s[i..j]
            && (forall k :: 0 <= k < i ==> IsSpace(s[k]))
            && (forall k :: j <= k < |s| ==> IsSpace(s[k]))
  {
    var t := TrimStart(s);
    var r := TrimEnd(t);
    var i := |s| - |t|;
    TrimStartIsSuffix(s);
    TrimEndIsPrefix(t);
    forall k | i + |r| <= k < |s|
      ensures IsSpace(s[k])
    {
      assert s[k] == t[k - i];
    }
    if r != [] {
      assert r[0] == t[0];
    }
    assert r == s[|s| - |t|..|s| - |t| + |r|];
  }

  lemma {:induction false} TrimIdentity(s: string)
    requires NoOuterSpace(s)
    ensures Trim(s) == s
  {
  }

  lemma TrimIdempotent(s: string)
    ensures Trim(Trim(s)) == Trim(s)
  {
    TrimmedHasNoOuterSpace(s);
    TrimIdentity(Trim(s));
  }

  // ------------------------------------------------------- literal replace

  /**
   * `s.replace(/pat/g, rep)` for a pattern that matches literally: scan left to
   * right, replace each non-overlapping occurrence.
   */
  function ReplaceAll(s: string, pat: string, rep: string): string
    requires pat != ""
    decreases |s|
  {
    if |s| < |pat| then s
    else if s[..|pat|] == pat then rep + ReplaceAll(s[|pat|..], pat, rep)
    else [s[0]] + ReplaceAll(s[1..], pat, rep)
  }

  lemma {:induction false} ReplaceAllAbsent(s: string, pat: string, rep: string)
    requires pat != ""
    requires !Contains(s, pat)
    ensures ReplaceAll(s, pat, rep) == s
    decreases |s|
  {
    if |s| >= |pat| {
      assert !OccursAt(s, pat, 0);
      forall i: nat | OccursAt(s[1..], pat, i) ensures false {
        assert s[1..][i..i + |pat|] == s[i + 1..i + 1 + |pat|];
        assert OccursAt(s, pat, i + 1);
      }
      ReplaceAllAbsent(s[1..], pat, rep);
    }
  }

  /** A prefix containing no character that could start the pattern is kept as it is. */
  lemma {:induction false} ReplaceAllSkipsPrefix(a: string, b: string, pat: string, rep: string)
    requires pat != ""
    requires pat[0] !in a
    ensures ReplaceAll(a + b, pat, rep) == a + ReplaceAll(b, pat, rep)
    decreases |a|
  {
    if a != [] {
      var s := a + b;
      if |s| >= |pat| {
        assert s[0] == a[0];
        assert s[..|pat|] != pat;
      }
      assert s[1..] == a[1..] + b;
      ReplaceAllSkipsPrefix(a[1..], b, pat, rep);
    } else {
      assert a + b == b;
    }
  }

  /** A text holding no character that could start the pattern is left as it is. */
  lemma {:induction false} ReplaceAllUntouched(s: string, pat: string, rep: string)
    requires pat != "" && pat[0] !in s
    ensures ReplaceAll(s, pat, rep) == s
  {
    ReplaceAllSkipsPrefix(s, [], pat, rep);
    assert s + [] == s;
  }

  /** Replacing a pattern by itself changes nothing. */
  lemma {:induction false} ReplaceAllSelf(s: string, pat: string)
    requires pat != ""
    ensures ReplaceAll(s, pat, pat) == s
    decreases |s|
  {
    if |s| >= |pat| {
      if s[..|pat|] == pat {
        ReplaceAllSelf(s[|pat|..], pat);
        assert s == pat + s[|pat|..];
      } else {
        ReplaceAllSelf(s[1..], pat);
        assert s == [s[0]] + s[1..];
      }
    }
  }

  lemma ReplaceAllLeading(pat: string, b: string, rep: string)
    requires pat != ""
    ensures ReplaceAll(pat + b, pat, rep) == rep + ReplaceAll(b, pat, rep)
  {
    assert (pat + b)[..|pat|] == pat;
    assert (pat + b)[|pat|..] == b;
  }

  /** Neither of two texts is a prefix of the other: they differ at a position both have. */
  predicate Differ(p: string, q: string) {
    exists j :: 0 <= j < |p| && j < |q| && p[j] != q[j]
  }

  /**
   * A text q that differs from the pattern early on, and whose rest holds no
   * character that could start the pattern, is passed over whole.
   */
  lemma ReplaceAllSkipsOther(q: string, b: string, pat: string, rep: string)
    requires pat != "" && q != [] && pat[0] !in q[1..] && Differ(q, pat)
    ensures ReplaceAll(q + b, pat, rep) == q + ReplaceAll(b, pat, rep)
  {
    var s := q + b;
    var j :| 0 <= j < |q| && j < |pat| && q[j] != pat[j];
    if |s| >= |pat| {
      assert s[..|pat|][j] != pat[j];
      assert ReplaceAll(s, pat, rep) == [s[0]] + ReplaceAll(s[1..], pat, rep);
      assert s[1..] == q[1..] + b;
      ReplaceAllSkipsPrefix(q[1..], b, pat, rep);
      var t := ReplaceAll(b, pat, rep);
      assert q == [q[0]] + q[1..];
      ConcatAssoc([q[0]], q[1..], t);
    } else {
      assert |b| < |pat|;
    }
  }

  /** The literal replacements applied one after another, each to the text the previous one left. */
  function ReplaceEach(s: string, subs: seq<(string, string)>): string
    requires forall i :: 0 <= i < |subs| ==> subs[i].0 != ""
    decreases |subs|
  {
    if subs == [] then s else ReplaceEach(ReplaceAll(s, subs[0].0, subs[0].1), subs[1..])
  }

  /**
   * Placeholder substitutions: each pattern opens with `{` and holds no other
   * `{`, and no replacement value holds a `{`.
   */
  predicate Bracketed(subs: seq<(string, string)>) {
    forall i :: 0 <= i < |subs| ==>
      subs[i].0 != "" && subs[i].0[0] == '{' && '{' !in subs[i].0[1..] && '{' !in subs[i].1
  }

  /** A text without any of the patterns comes out as it went in. */
  lemma {:induction false} ReplaceEachAbsent(s: string, subs: seq<(string, string)>)
    requires forall i :: 0 <= i < |subs| ==> subs[i].0 != "" && !Contains(s, subs[i].0)
    ensures ReplaceEach(s, subs) == s
    decreases |subs|
  {
    if subs != [] {
      ReplaceAllAbsent(s, subs[0].0, subs[0].1);
      ReplaceEachAbsent(s, subs[1..]);
    }
  }

  /** A prefix without `{` is kept by every placeholder substitution. */
  lemma {:induction false} ReplaceEachSkipsPrefix(a: string, b: string, subs: seq<(string, string)>)
    requires Bracketed(subs) && '{' !in a
    ensures ReplaceEach(a + b, subs) == a + ReplaceEach(b, subs)
    decreases |subs|
  {
    if subs != [] {
      ReplaceAllSkipsPrefix(a, b, subs[0].0, subs[0].1);
      ReplaceEachSkipsPrefix(a, ReplaceAll(b, subs[0].0, subs[0].1), subs[1..]);
    }
  }

  /**
   * A placeholder that follows text without `{` is replaced by its value,
   * provided it is told apart from the patterns substituted before it; the
   * rest of the text is then processed as if on its own.
   */
  lemma {:induction false} ReplaceEachReplaces(a: string, b: string, subs: seq<(string, string)>, k: nat)
    requires Bracketed(subs) && k < |subs| && '{' !in a
    requires forall i :: 0 <= i < k ==> Differ(subs[k].0, subs[i].0)
    ensures ReplaceEach(a + subs[k].0 + b, subs) == a + subs[k].1 + ReplaceEach(b, subs)
    decreases k
  {
    var pat := subs[0].0;
    var rep := subs[0].1;
    var q := subs[k].0;
    var rest := ReplaceAll(b, pat, rep);
    assert a + q + b == a + (q + b);
    ReplaceAllSkipsPrefix(a, q + b, pat, rep);
    if k == 0 {
      ReplaceAllLeading(pat, b, rep);
      assert a + (rep + rest) == (a + rep) + rest;
      ReplaceEachSkipsPrefix(a + rep, rest, subs[1..]);
    } else {
      ReplaceAllSkipsOther(q, b, pat, rep);
      assert a + (q + rest) == a + subs[1..][k - 1].0 + rest;
      ReplaceEachReplaces(a, rest, subs[1..], k - 1);
    }
  }

  // ---------------------------------------------------------- upper-casing

  function UpperChar(c: char): char {
    if 'a' <= c <= 'z' then (c as int - 32) as char else c
  }

  /** `s.toUpperCase()` on ASCII text (the only text the source upper-cases). */
  function ToUpper(s: string): (r: string)
    ensures |r| == |s|
    ensures forall i :: 0 <= i < |s| ==> r[i] == UpperChar(s[i])
  {
    seq(|s|, i requires 0 <= i < |s| => UpperChar(s[i]))
  }

  lemma ToUpperAppend(a: string, b: string)
    ensures ToUpper(a + b) == ToUpper(a) + ToUpper(b)
  {
    assert ToUpper(a + b) == ToUpper(a) + ToUpper(b);
  }
}
