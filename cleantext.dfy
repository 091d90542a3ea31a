/** The report's text sanitiser `cleanText`: falsy input becomes "", then
    four global replacements run in order: word-bounded 24-digit hex runs
    (database ids) are removed, the words "undefined", "null" and
    "[object Object]" are removed in any letter case, whitespace runs become
    one space and the ends are trimmed, and control characters are removed. */
module CleanText {
  import opened Strings
  import opened Sorting

  /** A value handed to `cleanText`: text, a number, or null/undefined. */
  datatype Raw = Text(s: string) | Number(n: int) | Missing

  /** `!text`: the empty string, 0, null and undefined are falsy. */
  predicate Falsy(v: Raw) {
    v == Missing || v == Text("") || v == Number(0)
  }

  /** `String(text)` for a value that is not falsy. */
  function AsString(v: Raw): string {
    match v
    case Text(s) => s
    case Number(n) => IntToString(n)
    case Missing => ""
  }

  // ------------------------------------------------------------ database ids

  /** `[0-9a-f]` under the `i` flag. */
  predicate IsHexDigit(c: char) {
    ('0' <= c <= '9') || ('a' <= c <= 'f') || ('A' <= c <= 'F')
  }

  predicate NotHexDigit(c: char) {
    !IsHexDigit(c)
  }

  /** The characters `\b` tells apart from the others: `[A-Za-z0-9_]`. */
  predicate IsWordChar(c: char) {
    ('a' <= c <= 'z') || ('A' <= c <= 'Z') || ('0' <= c <= '9') || c == '_'
  }

  /** `/\b[0-9a-f]{24}\b/i` matches at position `i` of `s`. */
  predicate IdAt(s: string, i: nat) {
    && i + 24 <= |s|
    && (forall k :: i <= k < i + 24 ==> IsHexDigit(s[k]))
    && (i == 0 || !IsWordChar(s[i - 1]))
    && (i + 24 == |s| || !IsWordChar(s[i + 24]))
  }

  /** The global replacement scans `s` from position `i`: a match is dropped
      and the scan resumes after it, any other character is kept. */
  function DropIdsFrom(s: string, i: nat): (r: string)
    requires i <= |s|
    ensures |r| <= |s| - i
    decreases |s| - i
  {
    if i == |s| then []
    else if IdAt(s, i) then DropIdsFrom(s, i + 24)
    else [s[i]] + DropIdsFrom(s, i + 1)
  }

  function DropIds(s: string): string {
    DropIdsFrom(s, 0)
  }

  /** Skipping a run of hex digits leaves the non-hex characters as they are. */
  lemma {:induction false} HexRunHasNoOtherChars(s: string, i: nat, j: nat)
    requires i <= j <= |s|
    requires forall k :: i <= k < j ==> IsHexDigit(s[k])
    ensures Filter(s[i..], NotHexDigit) == Filter(s[j..], NotHexDigit)
    decreases j - i
  {
    if i < j {
      HexRunHasNoOtherChars(s, i + 1, j);
      assert s[i..][1..] == s[i + 1..];
    }
  }

  /** Removing ids removes hex digits only: every other character of the text
      survives, in order. */
  lemma {:induction false} DropIdsFromKeepsOtherChars(s: string, i: nat)
    requires i <= |s|
    ensures Filter(DropIdsFrom(s, i), NotHexDigit) == Filter(s[i..], NotHexDigit)
    decreases |s| - i
  {
    if i < |s| {
      if IdAt(s, i) {
        DropIdsFromKeepsOtherChars(s, i + 24);
        HexRunHasNoOtherChars(s, i, i + 24);
      } else {
        DropIdsFromKeepsOtherChars(s, i + 1);
        FilterCons(s[i], DropIdsFrom(s, i + 1), NotHexDigit);
        assert s[i..] == [s[i]] + s[i + 1..];
        FilterCons(s[i], s[i + 1..], NotHexDigit);
      }
    }
  }

  lemma DropIdsKeepsOtherChars(s: string)
    ensures Filter(DropIds(s), NotHexDigit) == Filter(s, NotHexDigit)
  {
    DropIdsFromKeepsOtherChars(s, 0);
    assert s[0..] == s;
  }

  /** A text in which no id is bounded by word boundaries is left alone. */
  lemma {:induction false} DropIdsFromWithoutIds(s: string, i: nat)
    requires i <= |s|
    requires forall k :: i <= k < |s| ==> !IdAt(s, k)
    ensures DropIdsFrom(s, i) == s[i..]
    decreases |s| - i
  {
    if i < |s| {
      DropIdsFromWithoutIds(s, i + 1);
      assert s[i..] == [s[i]] + s[i + 1..];
    }
  }

  /** `/^[0-9a-f]{24}$/i`: the whole text is one database id. */
  predicate IsIdText(s: string) {
    |s| == 24 && forall k :: 0 <= k < 24 ==> IsHexDigit(s[k])
  }

  /** Positions at which no id starts are copied one by one. */
  lemma {:induction false} DropIdsFromCopies(s: string, i: nat, j: nat)
    requires i <= j <= |s|
    requires forall k :: i <= k < j ==> !IdAt(s, k)
    ensures DropIdsFrom(s, i) == s[i..j] + DropIdsFrom(s, j)
    decreases j - i
  {
    if i < j {
      assert !IdAt(s, i);
      assert DropIdsFrom(s, i) == [s[i]] + DropIdsFrom(s, i + 1);
      DropIdsFromCopies(s, i + 1, j);
      assert s[i..j] == [s[i]] + s[i + 1..j];
    }
  }

  /** Inside `q`, an id of `a + q` is an id of `q`: the word boundaries it
      tests lie inside `q`. */
  lemma IdAtShift(a: string, q: string, j: nat)
    requires 0 < j <= |q|
    ensures IdAt(a + q, |a| + j) <==> IdAt(q, j)
  {
    var s := a + q;
    assert s[|a| + j - 1] == q[j - 1];
    if j + 24 <= |q| {
      if j + 24 < |q| {
        assert s[|a| + j + 24] == q[j + 24];
      }
      if IdAt(q, j) {
        forall k | |a| + j <= k < |a| + j + 24
          ensures IsHexDigit(s[k])
        {
          assert s[k] == q[k - |a|];
        }
      }
      if IdAt(s, |a| + j) {
        forall k | j <= k < j + 24
          ensures IsHexDigit(q[k])
        {
          assert s[|a| + k] == q[k];
        }
      }
    }
  }

  /** Once the scan of `a + q` is inside `q` (or at its start, when `q` does
      not start with a hex digit), it goes as the scan of `q` alone. */
  lemma {:induction false} DropIdsFromShift(a: string, q: string, j: nat)
    requires j <= |q|
    requires j > 0 || q == [] || !IsHexDigit(q[0])
    ensures DropIdsFrom(a + q, |a| + j) == DropIdsFrom(q, j)
    decreases |q| - j
  {
    if j < |q| {
      if j == 0 {
        assert (a + q)[|a|] == q[0];
      } else {
        IdAtShift(a, q, j);
      }
      if IdAt(q, j) {
        DropIdsFromShift(a, q, j + 24);
      } else {
        DropIdsFromShift(a, q, j + 1);
      }
    }
  }

  /** An id that ends before the end of `p` is read the same in `p + t`. */
  lemma IdAtPrefix(p: string, t: string, k: nat)
    requires k + 24 < |p|
    ensures IdAt(p + t, k) <==> IdAt(p, k)
  {
    var s := p + t;
    assert s[..|p|] == p;
    assert forall m :: 0 <= m < |p| ==> s[m] == s[..|p|][m];
  }

  /** A prefix holding no id of its own and ending at a word boundary
      starts no id in any longer text either. */
  lemma NoIdStartsInPrefix(p: string, t: string)
    requires forall k :: 0 <= k < |p| ==> !IdAt(p, k)
    requires p == [] || !IsWordChar(p[|p| - 1])
    ensures forall k :: 0 <= k < |p| ==> !IdAt(p + t, k)
  {
    var s := p + t;
    forall k | 0 <= k < |p|
      ensures !IdAt(s, k)
    {
      if k + 24 < |p| {
        IdAtPrefix(p, t, k);
      } else {
        assert !IsHexDigit(s[|p| - 1]);
      }
    }
  }

  /** One id between word boundaries is removed: the text before it, which
      holds no id of its own, is kept, and the text after it is cleaned as
      if it stood alone. */
  lemma DropIdsRemovesId(p: string, id: string, q: string)
    requires IsIdText(id)
    requires forall k :: 0 <= k < |p| ==> !IdAt(p, k)
    requires p == [] || !IsWordChar(p[|p| - 1])
    requires q == [] || !IsWordChar(q[0])
    ensures DropIds(p + id + q) == p + DropIds(q)
  {
    var s := p + id + q;
    assert s == p + (id + q);
    NoIdStartsInPrefix(p, id + q);
    DropIdsFromCopies(s, 0, |p|);
    assert s[0..|p|] == p;
    assert IdAt(s, |p|) by {
      assert forall k :: 0 <= k < 24 ==> s[|p| + k] == id[k];
      assert |p| + 24 == |s| || s[|p| + 24] == q[0];
    }
    DropIdsFromShift(p + id, q, 0);
  }

  /** Removing the ids of a text with none between the two parts: the first
      part is kept as it is. */
  lemma DropIdsKeepsPrefix(p: string, q: string)
    requires forall k :: 0 <= k < |p| ==> !IdAt(p, k)
    requires p == [] || !IsWordChar(p[|p| - 1])
    requires q == [] || !IsWordChar(q[0])
    ensures DropIds(p + q) == p + DropIds(q)
  {
    NoIdStartsInPrefix(p, q);
    DropIdsFromCopies(p + q, 0, |p|);
    assert (p + q)[0..|p|] == p;
    DropIdsFromShift(p, q, 0);
  }

  /** A single word (letters, digits and `_`) is removed whole when it is an
      id and kept whole otherwise: a run of 25 hex digits, or an id glued to
      another word character, survives. */
  lemma DropIdsOfWord(w: string)
    requires forall k :: 0 <= k < |w| ==> IsWordChar(w[k])
    ensures DropIds(w) == if IsIdText(w) then [] else w
  {
    if IsIdText(w) {
      assert IdAt(w, 0);
    } else {
      forall k | 0 <= k < |w|
        ensures !IdAt(w, k)
      {
        if k > 0 {
          assert IsWordChar(w[k - 1]);
        } else if 24 < |w| {
          assert IsWordChar(w[24]);
        }
      }
      DropIdsFromWithoutIds(w, 0);
    }
  }

  // ------------------------------------------------------------- junk words

  /** The word `w` (written in lower case) occurs at position `i` of `s` in
      any letter case, compared character by character. */
  predicate WordAt(s: string, i: nat, w: string) {
    i + |w| <= |s| && forall k :: 0 <= k < |w| ==> LowerChar(s[i + k]) == w[k]
  }

  /** A word occurs wherever a text holds it in some letter case. */
  lemma WordAtOfCopy(s: string, i: nat, w: string)
    requires i + |w| <= |s| && s[i..i + |w|] == w
    ensures WordAt(s, i, Lower(w))
  {
    forall k | 0 <= k < |w|
      ensures LowerChar(s[i + k]) == Lower(w)[k]
    {
      LowerAt(w, k);
      assert s[i + k] == s[i..i + |w|][k];
    }
  }

  /** Length of the junk word `/undefined|null|\[object Object\]/i` matches
      at `i`, or 0 when none does; the alternatives are tried in the order
      written. */
  function JunkLength(s: string, i: nat): (n: nat)
    ensures n > 0 ==> i + n <= |s|
  {
    if WordAt(s, i, "undefined") then 9
    else if WordAt(s, i, "null") then 4
    else if WordAt(s, i, "[object object]") then 15
    else 0
  }

  /** Some alternative of the junk expression matches at `i`. */
  predicate JunkAt(s: string, i: nat) {
    JunkLength(s, i) > 0
  }

  /** The global replacement of the junk words: a match at the front is
      dropped and the scan resumes after it, any other character is kept. */
  function DropJunk(s: string): (r: string)
    ensures |r| <= |s|
    decreases |s|
  {
    if s == [] then []
    else if JunkLength(s, 0) > 0 then DropJunk(s[JunkLength(s, 0)..])
    else [s[0]] + DropJunk(s[1..])
  }

  /** The junk expression does not look behind a match: what matches inside
      `q` matches there in `a + q` too. */
  lemma WordAtShift(a: string, q: string, j: nat, w: string)
    requires j <= |q|
    ensures WordAt(a + q, |a| + j, w) <==> WordAt(q, j, w)
  {
    if j + |w| <= |q| {
      forall m | |a| + j <= m < |a| + j + |w|
        ensures (a + q)[m] == q[m - |a|]
      {
      }
    }
  }

  lemma JunkLengthShift(a: string, q: string, j: nat)
    requires j <= |q|
    ensures JunkLength(a + q, |a| + j) == JunkLength(q, j)
  {
    WordAtShift(a, q, j, "undefined");
    WordAtShift(a, q, j, "null");
    WordAtShift(a, q, j, "[object object]");
  }

  /** No junk word starts in the rest of a text where none starts in the
      text. */
  lemma NoJunkInTail(s: string)
    requires s != []
    requires forall k :: 0 <= k < |s| ==> !JunkAt(s, k)
    ensures forall k :: 0 <= k < |s| - 1 ==> !JunkAt(s[1..], k)
  {
    forall k | 0 <= k < |s| - 1
      ensures !JunkAt(s[1..], k)
    {
      assert s == [s[0]] + s[1..];
      JunkLengthShift([s[0]], s[1..], k);
      assert !JunkAt(s, 1 + k);
    }
  }

  /** A text in which no junk word starts anywhere is left alone. */
  lemma {:induction false} DropJunkWithoutJunk(s: string)
    requires forall k :: 0 <= k < |s| ==> !JunkAt(s, k)
    ensures DropJunk(s) == s
    decreases |s|
  {
    if s != [] {
      assert !JunkAt(s, 0);
      NoJunkInTail(s);
      DropJunkWithoutJunk(s[1..]);
      assert s == [s[0]] + s[1..];
    }
  }

  /** The alternatives of the junk expression, lower-cased. */
  predicate IsJunkWord(w: string) {
    w == "undefined" || w == "null" || w == "[object object]"
  }

  /** A word cannot occur where the text holds another first letter. */
  lemma NotWordAtOtherFirst(s: string, i: nat, w: string)
    requires i < |s| && |w| > 0 && LowerChar(s[i]) != w[0]
    ensures !WordAt(s, i, w)
  {
    assert LowerChar(s[i + 0]) != w[0];
  }

  /** Where a junk word occurs, the expression matches exactly that word:
      an earlier alternative cannot match, since it begins with another
      letter. */
  lemma JunkLengthAtJunkWord(s: string, i: nat, v: string)
    requires IsJunkWord(v) && WordAt(s, i, v)
    ensures JunkLength(s, i) == |v|
  {
    assert LowerChar(s[i + 0]) == v[0];
    if v == "null" {
      NotWordAtOtherFirst(s, i, "undefined");
    } else if v == "[object object]" {
      NotWordAtOtherFirst(s, i, "undefined");
      NotWordAtOtherFirst(s, i, "null");
    }
  }

  /** The same for the word as the text writes it, in any letter case. */
  lemma JunkLengthAtWord(s: string, i: nat, w: string)
    requires IsJunkWord(Lower(w))
    requires i + |w| <= |s| && s[i..i + |w|] == w
    ensures JunkLength(s, i) == |w|
  {
    WordAtOfCopy(s, i, w);
    JunkLengthAtJunkWord(s, i, Lower(w));
  }



  /** A junk word at the front of a text is dropped and the rest is cleaned
      as if it stood alone. */
  lemma DropJunkAtWord(w: string, q: string)
    requires IsJunkWord(Lower(w))
    ensures DropJunk(w + q) == DropJunk(q)
  {
    assert (w + q)[0..|w|] == w;
    JunkLengthAtWord(w + q, 0, w);
    assert (w + q)[|w|..] == q;
  }

  lemma SplitFirst(p: string, q: string)
    requires p != []
    ensures p == [p[0]] + p[1..]
    ensures (p + q)[0] == p[0] && (p + q)[1..] == p[1..] + q
  {
  }

  /** A character at which no junk word starts is kept. */
  lemma DropJunkKeepsFirst(s: string)
    requires s != [] && !JunkAt(s, 0)
    ensures DropJunk(s) == [s[0]] + DropJunk(s[1..])
  {
  }

  /** No junk word starts before `q` once the first character is gone. */
  lemma NoJunkBeforeAfterFirst(p: string, q: string)
    requires p != []
    requires forall k :: 0 <= k < |p| ==> !JunkAt(p + q, k)
    ensures forall k :: 0 <= k < |p| - 1 ==> !JunkAt(p[1..] + q, k)
  {
    var s := p + q;
    assert s == [s[0]] + (p[1..] + q);
    forall k | 0 <= k < |p| - 1
      ensures !JunkAt(p[1..] + q, k)
    {
      JunkLengthShift([s[0]], p[1..] + q, k);
      assert !JunkAt(s, 1 + k);
    }
  }

  /** Removing the junk words of a text in which none starts before the
      second part: the first part is kept as it is. */
  lemma {:induction false} DropJunkKeepsPrefix(p: string, q: string)
    requires forall k :: 0 <= k < |p| ==> !JunkAt(p + q, k)
    ensures DropJunk(p + q) == p + DropJunk(q)
    decreases |p|
  {
    if p == [] {
      assert p + q == q;
    } else {
      SplitFirst(p, q);
      assert !JunkAt(p + q, 0);
      DropJunkKeepsFirst(p + q);
      NoJunkBeforeAfterFirst(p, q);
      DropJunkKeepsPrefix(p[1..], q);
    }
  }


  /** One junk word, in any letter case, is removed: the text before it, in
      which no junk word starts, is kept, and the text after it is cleaned as
      if it stood alone. */
  lemma DropJunkRemovesWord(p: string, w: string, q: string)
    requires IsJunkWord(Lower(w))
    requires forall k :: 0 <= k < |p| ==> !JunkAt(p + w + q, k)
    ensures DropJunk(p + w + q) == p + DropJunk(q)
  {
    assert p + w + q == p + (w + q);
    DropJunkKeepsPrefix(p, w + q);
    DropJunkAtWord(w, q);
  }

  /** The replacement is not repeated: a junk word that only forms once
      another is removed stays. */
  lemma JunkFormedByRemovalStays()
    ensures DropJunk("nunullll") == "null"
  {
    DropJunkOfNunullll("nunullll");
  }

  lemma DropJunkOfNunullll(s: string)
    requires s == "nunullll"
    ensures DropJunk(s) == "null"
  {
    assert s == "nu" + "null" + "ll";
    NoJunkBeforeNull(s);
    assert Lower("null") == "null" by {
      LowerOfLowercase("null");
    }
    DropJunkRemovesWord("nu", "null", "ll");
    NoJunkIn("ll");
  }

  lemma NoJunkBeforeNull(s: string)
    requires s == "nunullll"
    ensures forall k :: 0 <= k < 2 ==> !JunkAt(s, k)
  {
    assert !WordAt(s, 0, "null") by {
      assert "null"[2] == 'l' && s[0 + 2] == 'n';
    }
    if WordAt(s, 1, "null") { WordAtFirstChar(s, 1, "null"); }
    assert !JunkAt(s, 0) && !JunkAt(s, 1);
  }

  // ------------------------------------------------------------- whitespace

  /** Drops the leading whitespace. */
  function SkipSpaces(s: string): (r: string)
    ensures |r| <= |s|
    ensures r == s[|s| - |r|..]
    ensures r != [] ==> !IsSpace(r[0])
    ensures forall k :: 0 <= k < |s| - |r| ==> IsSpace(s[k])
  {
    if s != [] && IsSpace(s[0]) then SkipSpaces(s[1..]) else s
  }

  predicate NotSpace(c: char) {
    !IsSpace(c)
  }

  /** `replace(/\s+/g, ' ')`: every maximal whitespace run becomes one space. */
  function Collapse(s: string): (r: string)
    ensures |r| <= |s|
    decreases |s|
  {
    if s == [] then []
    else if IsSpace(s[0]) then [' '] + Collapse(SkipSpaces(s[1..]))
    else [s[0]] + Collapse(s[1..])
  }

  /** The only whitespace is a single ' ', never followed by more whitespace. */
  predicate SingleSpaced(s: string) {
    forall i :: 0 <= i < |s| && IsSpace(s[i]) ==> s[i] == ' ' && (i + 1 == |s| || !IsSpace(s[i + 1]))
  }

  /** Collapsing leaves single spaces only. */
  lemma {:induction false} CollapseIsSingleSpaced(s: string)
    ensures SingleSpaced(Collapse(s))
    ensures Collapse(s) != [] && IsSpace(Collapse(s)[0]) ==> s != [] && IsSpace(s[0])
    decreases |s|
  {
    if s != [] {
      if IsSpace(s[0]) {
        var rest := SkipSpaces(s[1..]);
        CollapseIsSingleSpaced(rest);
        var c := Collapse(rest);
        assert rest != [] ==> !IsSpace(rest[0]);
        assert c == [] || !IsSpace(c[0]);
        assert forall i :: 1 <= i < |[' '] + c| ==> ([' '] + c)[i] == c[i - 1];
      } else {
        CollapseIsSingleSpaced(s[1..]);
        var c := Collapse(s[1..]);
        assert forall i :: 1 <= i < |[s[0]] + c| ==> ([s[0]] + c)[i] == c[i - 1];
      }
    }
  }

  /** Skipping whitespace keeps the other characters. */
  lemma {:induction false} SkipSpacesKeepsOtherChars(s: string)
    ensures Filter(SkipSpaces(s), NotSpace) == Filter(s, NotSpace)
  {
    if s != [] && IsSpace(s[0]) {
      SkipSpacesKeepsOtherChars(s[1..]);
    }
  }

  /** Collapsing keeps every character that is not whitespace, in order. */
  lemma {:induction false} CollapseKeepsOtherChars(s: string)
    ensures Filter(Collapse(s), NotSpace) == Filter(s, NotSpace)
    decreases |s|
  {
    if s != [] {
      if IsSpace(s[0]) {
        var rest := SkipSpaces(s[1..]);
        CollapseKeepsOtherChars(rest);
        SkipSpacesKeepsOtherChars(s[1..]);
        assert ([' '] + Collapse(rest))[1..] == Collapse(rest);
      } else {
        CollapseKeepsOtherChars(s[1..]);
        assert ([s[0]] + Collapse(s[1..]))[1..] == Collapse(s[1..]);
      }
    }
  }

  /** Single-spaced text is not changed by collapsing. */
  lemma {:induction false} CollapseOfSingleSpaced(s: string)
    requires SingleSpaced(s)
    ensures Collapse(s) == s
  {
    if s != [] {
      assert SingleSpaced(s[1..]) by {
        forall i | 0 <= i < |s[1..]| && IsSpace(s[1..][i])
          ensures s[1..][i] == ' ' && (i + 1 == |s[1..]| || !IsSpace(s[1..][i + 1]))
        {
          assert s[1..][i] == s[i + 1];
        }
      }
      CollapseOfSingleSpaced(s[1..]);
      if IsSpace(s[0]) {
        assert s[1..] == [] || !IsSpace(s[1..][0]);
        assert SkipSpaces(s[1..]) == s[1..];
      }
      assert s == [s[0]] + s[1..];
    }
  }

  /** `trim()`: whitespace removed from both ends. */
  function Trim(s: string): (r: string)
    ensures |r| <= |s|
    ensures r != [] ==> !IsSpace(r[0]) && !IsSpace(r[|r| - 1])
    ensures exists a, b :: 0 <= a <= b <= |s| && r == s[a..b]
    decreases |s|
  {
    if s != [] && IsSpace(s[0]) then
      var r := Trim(s[1..]);
      ghost var a, b :| 0 <= a <= b <= |s[1..]| && r == s[1..][a..b];
      assert r == s[a + 1..b + 1];
      r
    else if s != [] && IsSpace(s[|s| - 1]) then
      var r := Trim(s[..|s| - 1]);
      ghost var a, b :| 0 <= a <= b <= |s[..|s| - 1]| && r == s[..|s| - 1][a..b];
      assert r == s[a..b];
      r
    else
      assert s == s[0..|s|];
      s
  }

  /** Text without whitespace at either end is not changed by trimming. */
  lemma TrimOfTrimmed(s: string)
    requires s == [] || (!IsSpace(s[0]) && !IsSpace(s[|s| - 1]))
    ensures Trim(s) == s
  {
  }

  // ------------------------------------------------------ control characters

  /** `[\x00-\x1F\x7F]`. */
  predicate IsControl(c: char) {
    c <= '\U{001F}' || c == '\U{007F}'
  }

  predicate NotControl(c: char) {
    !IsControl(c)
  }

  // --------------------------------------------------------------- the chain

  /** `cleanText(text)`. */
  function Clean(v: Raw): (r: string)
    ensures Falsy(v) ==> r == ""
    ensures forall i :: 0 <= i < |r| ==> !IsControl(r[i])
  {
    if Falsy(v) then ""
    else Filter(Trim(Collapse(DropJunk(DropIds(AsString(v))))), NotControl)
  }

  /** Removing an id from between word boundaries does not change what a
      text cleans to. */
  lemma CleanIgnoresId(p: string, id: string, q: string)
    requires IsIdText(id)
    requires forall k :: 0 <= k < |p| ==> !IdAt(p, k)
    requires p == [] || !IsWordChar(p[|p| - 1])
    requires q == [] || !IsWordChar(q[0])
    ensures Clean(Text(p + id + q)) == Clean(Text(p + q))
  {
    DropIdsRemovesId(p, id, q);
    DropIdsKeepsPrefix(p, q);
    assert |p + id + q| >= 24;
    if p + q == [] {
      assert q == [] && p == [];
      assert DropIds(p + id + q) == [];
    }
  }

  /** Every letter-case form of a junk word cleans to the empty text. */
  lemma CleanOfJunkWord(w: string)
    requires IsJunkWord(Lower(w))
    ensures Clean(Text(w)) == ""
  {
    assert |w| <= 15;
    DropIdsFromWithoutIds(w, 0);
    assert w[0..] == w;
    DropJunkRemovesWord([], w, []);
    assert [] + w + [] == w;
  }

  /** In a text without ids, removing a junk word from it does not change
      what it cleans to, provided no junk word starts before it, with or
      without it. */
  lemma CleanIgnoresJunkWord(p: string, w: string, q: string)
    requires IsJunkWord(Lower(w))
    requires forall k :: 0 <= k < |p| ==> !JunkAt(p + w + q, k) && !JunkAt(p + q, k)
    requires forall k :: 0 <= k < |p + w + q| ==> !IdAt(p + w + q, k)
    requires forall k :: 0 <= k < |p + q| ==> !IdAt(p + q, k)
    ensures Clean(Text(p + w + q)) == Clean(Text(p + q))
  {
    DropIdsFromWithoutIds(p + w + q, 0);
    assert (p + w + q)[0..] == p + w + q;
    DropIdsFromWithoutIds(p + q, 0);
    assert (p + q)[0..] == p + q;
    DropJunkRemovesWord(p, w, q);
    DropJunkKeepsPrefix(p, q);
    assert |w| > 0;
    if p + q == [] {
      assert q == [] && p == [];
      assert DropJunk(p + w + q) == [];
    }
  }

  /** Ordinary text is returned as it is: no id, no junk word, single spaces
      only, no whitespace at the ends and no control character. */
  lemma CleanKeepsOrdinaryText(s: string)
    requires s != []
    requires forall k :: 0 <= k < |s| ==> !IdAt(s, k) && !JunkAt(s, k) && !IsControl(s[k])
    requires SingleSpaced(s) && !IsSpace(s[0]) && !IsSpace(s[|s| - 1])
    ensures Clean(Text(s)) == s
  {
    DropIdsFromWithoutIds(s, 0);
    assert DropIds(s) == s;
    DropJunkWithoutJunk(s);
    assert DropJunk(s) == s;
    CollapseOfSingleSpaced(s);
    TrimOfTrimmed(s);
    FilterKeepsAll(s, NotControl);
  }

  /** A junk word can only start at a character that lower-cases to its
      first letter. */
  lemma WordAtFirstChar(s: string, k: nat, w: string)
    requires WordAt(s, k, w) && |w| > 0
    ensures LowerChar(s[k]) == w[0]
  {
    assert LowerChar(s[k + 0]) == w[0];
  }

  /** Near the end of a text, where none of the junk words fits, nothing is
      removed. */
  lemma DropJunkNearEnd(s: string)
    requires |s| < 4
    ensures DropJunk(s) == s
  {
    DropJunkWithoutJunk(s);
  }

  /** The last three stages leave single-spaced text without control
      characters or whitespace at its ends unchanged. */
  lemma LastStagesKeepOrdinaryText(s: string)
    requires forall k :: 0 <= k < |s| ==> !IsControl(s[k])
    requires SingleSpaced(s) && (s == [] || (!IsSpace(s[0]) && !IsSpace(s[|s| - 1])))
    ensures Filter(Trim(Collapse(s)), NotControl) == s
  {
    CollapseOfSingleSpaced(s);
    TrimOfTrimmed(s);
    FilterKeepsAll(s, NotControl);
  }

  /** Letters are neither whitespace nor control characters. */
  predicate Letter(c: char) {
    ('a' <= c <= 'z') || ('A' <= c <= 'Z')
  }

  /** Text made of letters and single spaces between them passes the last
      three stages unchanged. */
  lemma WordsKeepTheirSpacing(s: string)
    requires forall k :: 0 <= k < |s| ==> Letter(s[k]) || s[k] == ' '
    requires forall k :: 0 <= k < |s| - 1 && s[k] == ' ' ==> Letter(s[k + 1])
    requires s != [] ==> Letter(s[0]) && Letter(s[|s| - 1])
    ensures Filter(Trim(Collapse(s)), NotControl) == s
  {
    LastStagesKeepOrdinaryText(s);
  }

  lemma DropJunkOfNullify()
    ensures DropJunk("Nullify") == "ify"
  {
    var w := "Null";
    assert Lower(w) == "null" by {
      LowerConcat("N", "ull");
      LowerConcat("u", "ll");
      LowerConcat("l", "l");
      assert w == "N" + ("u" + ("l" + "l"));
    }
    assert "Nullify" == w + "ify";
    DropJunkAtWord(w, "ify");
    DropJunkNearEnd("ify");
  }


  /** The junk words go even from inside longer words. */
  lemma JunkGoesInsideWords()
    ensures Clean(Text("Nullify")) == "ify"
  {
    DropIdsFromWithoutIds("Nullify", 0);
    DropJunkOfNullify();
    var t := "ify";
    assert Letter(t[0]) && Letter(t[1]) && Letter(t[2]);
    WordsKeepTheirSpacing(t);
  }

  lemma NoJunkIn(s: string)
    requires forall k :: 0 <= k < |s| ==> s[k] != 'u' && s[k] != 'U' && s[k] != 'n' && s[k] != 'N' && s[k] != '['
    ensures DropJunk(s) == s
  {
    forall k | 0 <= k < |s|
      ensures !JunkAt(s, k)
    {
      if WordAt(s, k, "undefined") { WordAtFirstChar(s, k, "undefined"); }
      if WordAt(s, k, "null") { WordAtFirstChar(s, k, "null"); }
      if WordAt(s, k, "[object object]") { WordAtFirstChar(s, k, "[object object]"); }
    }
    DropJunkWithoutJunk(s);
  }

  lemma SpacedControlIsSingleSpaced()
    ensures SingleSpaced("a \U{0001} b")
  {
    var s := "a \U{0001} b";
    assert !IsSpace(s[0]) && !IsSpace(s[2]) && !IsSpace(s[4]);
  }

  lemma FilterOfSpacedControl()
    ensures Filter("a \U{0001} b", NotControl) == "a  b"
  {
    var s := "a \U{0001} b";
    assert s[2..] == ['\U{0001}'] + " b";
    assert Filter(" b", NotControl) == " b";
    assert Filter(s[2..], NotControl) == " b";
    assert Filter(s[1..], NotControl) == "  b";
  }

  /** Whitespace is collapsed before control characters are removed, so a
      control character between two spaces leaves the two spaces side by
      side. */
  lemma ControlBetweenSpacesLeavesTwoSpaces()
    ensures Clean(Text("a \U{0001} b")) == "a  b"
  {
    CleanOfSpacedControl("a \U{0001} b");
  }

  lemma CleanOfSpacedControl(s: string)
    requires s == "a \U{0001} b"
    ensures Clean(Text(s)) == "a  b"
  {
    assert |s| == 5 && s[0] == 'a' && s[4] == 'b';
    assert DropIds(s) == s by {
      DropIdsFromWithoutIds(s, 0);
      assert s[0..] == s;
    }
    assert DropJunk(s) == s by {
      NoJunkIn(s);
    }
    assert Collapse(s) == s by {
      SpacedControlIsSingleSpaced();
      CollapseOfSingleSpaced(s);
    }
    assert Trim(s) == s by {
      TrimOfTrimmed(s);
    }
    CleanOfUnchanged(s);
    FilterOfSpacedControl();
  }

  /** Text that the replacements before the last leave alone only loses its
      control characters. */
  lemma CleanOfUnchanged(s: string)
    requires s != []
    requires DropIds(s) == s && DropJunk(s) == s && Collapse(s) == s && Trim(s) == s
    ensures Clean(Text(s)) == Filter(s, NotControl)
  {
  }
}
