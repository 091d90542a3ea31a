/** Text operations the JavaScript code relies on: lower-casing, `includes`,
    splitting on a character class, `join`, and matching of the simple
    regular expressions the code writes as alternations of literals. */
module Strings {

  /** ASCII lower-casing (String.prototype.toLowerCase restricted to A-Z). */
  function LowerChar(c: char): (d: char)
    ensures 'A' <= c <= 'Z' ==> d as int == c as int + 32
    ensures !('A' <= c <= 'Z') ==> d == c
  {
    if 'A' <= c <= 'Z' then (c as int + 32) as char else c
  }

  function Lower(s: string): (r: string)
    ensures |r| == |s|
  {
    if s == [] then [] else [LowerChar(s[0])] + Lower(s[1..])
  }

  /** Lower-casing works character by character. */
  lemma {:induction false} LowerAt(s: string, i: nat)
    requires i < |s|
    ensures Lower(s)[i] == LowerChar(s[i])
  {
    if i > 0 {
      LowerAt(s[1..], i - 1);
    }
  }

  lemma {:induction false} LowerConcat(a: string, b: string)
    ensures Lower(a + b) == Lower(a) + Lower(b)
  {
    if a != [] {
      LowerConcat(a[1..], b);
      assert (a + b)[1..] == a[1..] + b;
    } else {
      assert a + b == b;
    }
  }

  /** Text without capitals is its own lower-case form. */
  lemma {:induction false} LowerOfLowercase(s: string)
    requires forall i :: 0 <= i < |s| ==> !('A' <= s[i] <= 'Z')
    ensures Lower(s) == s
  {
    if s != [] {
      LowerOfLowercase(s[1..]);
      assert s == [s[0]] + s[1..];
    }
  }

  predicate StartsWith(s: string, p: string) {
    |p| <= |s| && s[..|p|] == p
  }

  /** `s.includes(p)`: `p` occurs in `s` at some position. */
  predicate Contains(s: string, p: string)
    decreases |s|
  {
    StartsWith(s, p) || (|s| > 0 && Contains(s[1..], p))
  }

  /** `words.some(w => s.includes(w))`. */
  predicate ContainsAny(s: string, words: seq<string>) {
    exists k :: 0 <= k < |words| && Contains(s, words[k])
  }

  /** Every string contains the empty string. */
  lemma ContainsEmpty(s: string)
    ensures Contains(s, "")
  {
    assert StartsWith(s, "");
  }

  /** An occurrence at position `i` is an occurrence. */
  lemma {:induction false} ContainsAt(s: string, p: string, i: nat)
    requires i + |p| <= |s| && s[i..i + |p|] == p
    ensures Contains(s, p)
    decreases i
  {
    if i == 0 {
      assert s[..|p|] == s[0..|p|];
    } else {
      assert s[1..][i - 1..i - 1 + |p|] == s[i..i + |p|];
      ContainsAt(s[1..], p, i - 1);
    }
  }

  /** An occurrence in `s` is one in any string that has `s` inside it. */
  lemma {:induction false} ContainsWithin(a: string, s: string, b: string, p: string)
    requires Contains(s, p)
    ensures Contains(a + s + b, p)
    decreases |s|
  {
    if StartsWith(s, p) {
      var t := a + s + b;
      assert t[|a|..|a| + |p|] == s[..|p|];
      ContainsAt(t, p, |a|);
    } else {
      ContainsWithin(a + [s[0]], s[1..], b, p);
      assert a + [s[0]] + s[1..] + b == a + s + b;
    }
  }

  /** An occurrence has a position. */
  lemma {:induction false} ContainsIndex(s: string, p: string) returns (i: nat)
    requires Contains(s, p)
    ensures i + |p| <= |s| && s[i..i + |p|] == p
    decreases |s|
  {
    if StartsWith(s, p) {
      i := 0;
      assert s[0..|p|] == s[..|p|];
    } else {
      var j := ContainsIndex(s[1..], p);
      i := j + 1;
      assert s[1..][j..j + |p|] == s[i..i + |p|];
    }
  }

  /** Containment is transitive. */
  lemma {:induction false} ContainsTrans(a: string, b: string, c: string)
    requires Contains(a, b) && Contains(b, c)
    ensures Contains(a, c)
  {
    var i := ContainsIndex(a, b);
    var j := ContainsIndex(b, c);
    assert a[i..i + |b|] == b;
    forall k | 0 <= k < |c|
      ensures a[i + j..i + j + |c|][k] == c[k]
    {
      assert a[i + j..i + j + |c|][k] == a[i + j + k] == a[i..i + |b|][j + k] == b[j + k];
      assert b[j..j + |c|][k] == b[j + k];
    }
    ContainsAt(a, c, i + j);
  }

  lemma ContainsSelf(s: string)
    ensures Contains(s, s)
  {
    assert s[..|s|] == s;
  }

  /** Text placed between two others is found in the result. */
  lemma Mentions(a: string, s: string, b: string)
    ensures Contains(a + s + b, s)
  {
    ContainsSelf(s);
    ContainsWithin(a, s, b, s);
  }

  /** The characters JavaScript's `\s` class matches. */
  predicate IsSpace(c: char) {
    c == ' ' || c == '\t' || c == '\n' || c == '\r' || c == '\U{000B}' || c == '\U{000C}'
    || c == '\U{00A0}' || c == '\U{1680}' || ('\U{2000}' <= c <= '\U{200A}')
    || c == '\U{2028}' || c == '\U{2029}' || c == '\U{202F}' || c == '\U{205F}'
    || c == '\U{3000}' || c == '\U{FEFF}'
  }

  /** Splits `s` at every character satisfying the separator class `[\s+&,]`,
      keeping empty pieces, as `s.split(/[\s+&,]/)` does. */
  predicate IsKeywordSeparator(c: char) {
    IsSpace(c) || c == '+' || c == '&' || c == ','
  }

  function SplitOnSeparators(s: string): (r: seq<string>)
    ensures |r| >= 1
  {
    if s == [] then [""]
    else
      var rest := SplitOnSeparators(s[1..]);
      if IsKeywordSeparator(s[0]) then [""] + rest
      else [[s[0]] + rest[0]] + rest[1..]
  }

  predicate NoSeparatorIn(t: string) {
    forall i :: 0 <= i < |t| ==> !IsKeywordSeparator(t[i])
  }

  /** No piece contains a separator. */
  lemma {:induction false} SplitPiecesHaveNoSeparators(s: string)
    ensures forall k :: 0 <= k < |SplitOnSeparators(s)| ==> NoSeparatorIn(SplitOnSeparators(s)[k])
  {
    if s != [] {
      SplitPiecesHaveNoSeparators(s[1..]);
      var rest := SplitOnSeparators(s[1..]);
      var r := SplitOnSeparators(s);
      if !IsKeywordSeparator(s[0]) {
        var first := [s[0]] + rest[0];
        assert NoSeparatorIn(rest[0]);
        assert forall i :: 1 <= i < |first| ==> first[i] == rest[0][i - 1];
        assert NoSeparatorIn(first);
        assert r == [first] + rest[1..];
        assert forall k :: 1 <= k < |r| ==> r[k] == rest[k];
      } else {
        assert r == [""] + rest;
        assert forall k :: 1 <= k < |r| ==> r[k] == rest[k - 1];
      }
    }
  }

  /** Without separators nothing is split. */
  lemma {:induction false} SplitWithoutSeparators(s: string)
    requires forall c :: c in s ==> !IsKeywordSeparator(c)
    ensures SplitOnSeparators(s) == [s]
  {
    if s != [] {
      assert s[0] in s;
      assert forall c :: c in s[1..] ==> c in s;
      SplitWithoutSeparators(s[1..]);
      assert [s[0]] + s[1..] == s;
    }
  }

  /** The pieces are the text between separators: joined back with the
      separator they were cut at they give `s` again (shown here for a
      single space). */
  function Join(parts: seq<string>, sep: string): (r: string)
    ensures |parts| == 1 ==> r == parts[0]
  {
    if parts == [] then ""
    else if |parts| == 1 then parts[0]
    else parts[0] + sep + Join(parts[1..], sep)
  }

  lemma {:induction false} JoinContainsParts(parts: seq<string>, sep: string, k: nat)
    requires k < |parts|
    ensures Contains(Join(parts, sep), parts[k])
  {
    if |parts| == 1 {
      ContainsSelf(parts[0]);
    } else if k == 0 {
      ContainsSelf(parts[0]);
      ContainsWithin("", parts[0], sep + Join(parts[1..], sep), parts[0]);
      assert "" + parts[0] + (sep + Join(parts[1..], sep)) == Join(parts, sep);
    } else {
      JoinContainsParts(parts[1..], sep, k - 1);
      ContainsWithin(parts[0] + sep, Join(parts[1..], sep), "", parts[k]);
      assert parts[0] + sep + Join(parts[1..], sep) + "" == Join(parts, sep);
    }
  }

  function DigitChar(d: nat): (c: char)
    requires d < 10
    ensures '0' <= c <= '9'
  {
    ('0' as int + d) as char
  }

  /** Decimal text of a natural number, as `String(n)` writes it. */
  function NatToString(n: nat): (r: string)
    ensures |r| >= 1
    ensures forall i :: 0 <= i < |r| ==> '0' <= r[i] <= '9'
    ensures n < 10 ==> |r| == 1
    decreases n
  {
    if n < 10 then [DigitChar(n)] else NatToString(n / 10) + [DigitChar(n % 10)]
  }

  /** Decimal text of an integer, with a leading '-' for negatives. */
  function IntToString(n: int): (r: string)
    ensures |r| >= 1
    ensures (r[0] == '-') <==> n < 0
  {
    if n < 0 then "-" + NatToString(-n) else NatToString(n)
  }

  /** A regular-expression literal in which '.' stands for any character. */
  predicate WildcardPrefix(s: string, pat: string) {
    |pat| <= |s| && forall i :: 0 <= i < |pat| ==> pat[i] == '.' || pat[i] == s[i]
  }

  /** `pat` (with '.' as a wildcard) matches somewhere in `s`. */
  predicate WildcardFound(s: string, pat: string)
    decreases |s|
  {
    WildcardPrefix(s, pat) || (|s| > 0 && WildcardFound(s[1..], pat))
  }

  /** `s.match(/a|b|c/)` for an alternation of literal alternatives. */
  predicate AnyWildcardFound(s: string, alternatives: seq<string>) {
    exists k :: 0 <= k < |alternatives| && WildcardFound(s, alternatives[k])
  }

  /** A pattern longer than the text matches nowhere in it. */
  lemma {:induction false} WildcardNotFoundWhenLonger(s: string, pat: string)
    requires |pat| > |s|
    ensures !WildcardFound(s, pat)
    decreases |s|
  {
    if |s| > 0 {
      WildcardNotFoundWhenLonger(s[1..], pat);
    }
  }

  /** A literal occurrence is a wildcard match. */
  lemma {:induction false} ContainsIsWildcardFound(s: string, p: string)
    requires Contains(s, p)
    ensures WildcardFound(s, p)
    decreases |s|
  {
    if !StartsWith(s, p) {
      ContainsIsWildcardFound(s[1..], p);
    } else {
      assert forall i :: 0 <= i < |p| ==> s[..|p|][i] == s[i];
    }
  }
}
