/** Python string primitives the workflows rely on: `strip`, `rstrip`, `find`,
    `in`, `lower`, `join` and character filtering. */
module Text {

  /** Python's `str.isspace` for one character. */
  predicate IsSpace(c: char) {
    var k := c as int;
    (9 <= k <= 13) || (28 <= k <= 32) || k == 0x85 || k == 0xA0 || k == 0x1680
    || (0x2000 <= k <= 0x200A) || k == 0x2028 || k == 0x2029 || k == 0x202F
    || k == 0x205F || k == 0x3000
  }

  /** `s.lstrip()`. */
  function LStrip(s: string): (r: string)
    ensures |r| <= |s| && r == s[|s| - |r|..]
    ensures r == [] || !IsSpace(r[0])
  {
    if s != [] && IsSpace(s[0]) then LStrip(s[1..]) else s
  }

  /** Everything `lstrip` removes is white space. */
  lemma {:induction false} LStripRemovesSpace(s: string)
    ensures forall k :: 0 <= k < |s| - |LStrip(s)| ==> IsSpace(s[k])
    decreases |s|
  {
    if s != [] && IsSpace(s[0]) {
      LStripRemovesSpace(s[1..]);
      forall k | 1 <= k < |s| - |LStrip(s)|
        ensures IsSpace(s[k])
      {
        assert s[k] == s[1..][k - 1];
      }
    }
  }

  /** `s.rstrip()`. */
  function RStrip(s: string): (r: string)
    ensures |r| <= |s| && r == s[..|r|]
    ensures r == [] || !IsSpace(r[|r| - 1])
  {
    if s != [] && IsSpace(s[|s| - 1]) then RStrip(s[..|s| - 1]) else s
  }

  /** Everything `rstrip` removes is white space. */
  lemma {:induction false} RStripRemovesSpace(s: string)
    ensures forall k :: |RStrip(s)| <= k < |s| ==> IsSpace(s[k])
    decreases |s|
  {
    if s != [] && IsSpace(s[|s| - 1]) {
      RStripRemovesSpace(s[..|s| - 1]);
      forall k | |RStrip(s)| <= k < |s| - 1
        ensures IsSpace(s[k])
      {
        assert s[k] == s[..|s| - 1][k];
      }
    }
  }

  /** `s.strip()`. */
  function Strip(s: string): string {
    LStrip(RStrip(s))
  }

  /** `s.strip()` is the infix of `s` with no white space at either end, all of
      whose removed characters are white space. */
  lemma StripSound(s: string)
    ensures StrippedAt(s, Strip(s), |RStrip(s)| - |Strip(s)|)
    ensures var r := Strip(s); r == [] || (!IsSpace(r[0]) && !IsSpace(r[|r| - 1]))
  {
    var t := RStrip(s);
    var r := LStrip(t);
    RStripRemovesSpace(s);
    LStripRemovesSpace(t);
    StrippedFromParts(s, t, r);
    assert Strip(s) == r;
  }

  /** Trimming white space from the end and then from the start leaves an
      infix surrounded by white space. */
  lemma StrippedFromParts(s: string, t: string, r: string)
    requires |t| <= |s| && t == s[..|t|]
    requires t == [] || !IsSpace(t[|t| - 1])
    requires forall k :: |t| <= k < |s| ==> IsSpace(s[k])
    requires |r| <= |t| && r == t[|t| - |r|..]
    requires r == [] || !IsSpace(r[0])
    requires forall k :: 0 <= k < |t| - |r| ==> IsSpace(t[k])
    ensures StrippedAt(s, r, |t| - |r|)
    ensures r == [] || (!IsSpace(r[0]) && !IsSpace(r[|r| - 1]))
  {
    InfixOfPrefix(s, t, r);
    SpacesOfPrefix(s, t, |t| - |r|);
    LastOfSuffix(t, r);
  }

  /** White space at the start of a prefix is white space in the whole. */
  lemma SpacesOfPrefix(s: string, t: string, i: int)
    requires |t| <= |s| && t == s[..|t|] && 0 <= i <= |t|
    requires forall k :: 0 <= k < i ==> IsSpace(t[k])
    ensures forall k :: 0 <= k < i ==> IsSpace(s[k])
  {
    forall k | 0 <= k < i
      ensures IsSpace(s[k])
    {
      assert s[k] == t[k];
    }
  }

  /** A non-empty suffix ends with the last character of the whole. */
  lemma LastOfSuffix(t: string, r: string)
    requires |r| <= |t| && r == t[|t| - |r|..]
    ensures r != [] ==> r[|r| - 1] == t[|t| - 1]
  {
  }

  /** A suffix of a prefix is an infix. */
  lemma InfixOfPrefix(s: string, t: string, r: string)
    requires |t| <= |s| && t == s[..|t|]
    requires |r| <= |t| && r == t[|t| - |r|..]
    ensures r == s[|t| - |r|..|t|]
  {
  }

  /** `r` is the infix of `s` at `i`, and everything around it is white space. */
  predicate StrippedAt(s: string, r: string, i: int) {
    0 <= i <= |s| - |r| && r == s[i..i + |r|]
    && (forall k :: 0 <= k < i ==> IsSpace(s[k]))
    && (forall k :: i + |r| <= k < |s| ==> IsSpace(s[k]))
  }

  lemma {:induction false} LStripNoLeadingSpace(s: string)
    requires s == [] || !IsSpace(s[0])
    ensures LStrip(s) == s
  {
  }

  /** Stripping text that starts with a non-space character only trims its end. */
  lemma {:induction false} StripFromNonSpace(c: char, body: string)
    requires !IsSpace(c)
    ensures Strip([c] + body) == [c] + RStrip(body)
  {
    RStripConsLemma(c, body);
    LStripNoLeadingSpace(RStrip([c] + body));
  }

  lemma {:induction false} RStripConsLemma(c: char, body: string)
    requires !IsSpace(c)
    ensures RStrip([c] + body) == [c] + RStrip(body)
    decreases |body|
  {
    var s := [c] + body;
    if body != [] && IsSpace(body[|body| - 1]) {
      assert s[..|s| - 1] == [c] + body[..|body| - 1];
      RStripConsLemma(c, body[..|body| - 1]);
    }
  }

  /** Stripping is idempotent. */
  lemma StripIdempotent(s: string)
    ensures Strip(Strip(s)) == Strip(s)
  {
    var r := Strip(s);
    if r != [] {
      assert RStrip(r) == r;
      LStripNoLeadingSpace(r);
    }
  }

  /** `pat` occurs in `s` starting at index `i`. */
  predicate OccursAt(s: string, pat: string, i: int) {
    0 <= i && i + |pat| <= |s| && s[i..i + |pat|] == pat
  }

  /** `s.find(pat, from)`: the lowest index at or after `from` where `pat`
      occurs, or -1. */
  function Find(s: string, pat: string, from: nat): (r: int)
    ensures r == -1 <==> forall i :: from <= i ==> !OccursAt(s, pat, i)
    ensures r != -1 ==> from <= r && OccursAt(s, pat, r)
    ensures r != -1 ==> forall i :: from <= i < r ==> !OccursAt(s, pat, i)
    decreases |s| - from
  {
    if from + |pat| > |s| then -1
    else if s[from..from + |pat|] == pat then assert OccursAt(s, pat, from); from
    else Find(s, pat, from + 1)
  }

  /** Python's `pat in s`. */
  predicate Contains(s: string, pat: string) {
    Find(s, pat, 0) != -1
  }

  /** ASCII lower-casing of one character; other characters are unchanged. */
  function LowerChar(c: char): char {
    if 'A' <= c <= 'Z' then (c as int + 32) as char else c
  }

  /** ASCII upper-casing of one character; other characters are unchanged. */
  function UpperChar(c: char): char {
    if 'a' <= c <= 'z' then (c as int - 32) as char else c
  }

  /** `s.lower()`, restricted to ASCII so that the length is preserved. */
  function Lower(s: string): (r: string)
    ensures |r| == |s|
    ensures forall i :: 0 <= i < |s| ==> r[i] == LowerChar(s[i])
  {
    seq(|s|, i requires 0 <= i < |s| => LowerChar(s[i]))
  }

  /** `s.upper()`, restricted to ASCII. */
  function Upper(s: string): (r: string)
    ensures |r| == |s|
    ensures forall i :: 0 <= i < |s| ==> r[i] == UpperChar(s[i])
  {
    seq(|s|, i requires 0 <= i < |s| => UpperChar(s[i]))
  }

  lemma LowerSlice(s: string, i: int, j: int)
    requires 0 <= i <= j <= |s|
    ensures Lower(s)[i..j] == Lower(s[i..j])
  {
  }

  /** `sep.join(parts)`. */
  function Join(sep: string, parts: seq<string>): (r: string)
  {
    if parts == [] then []
    else if |parts| == 1 then parts[0]
    else parts[0] + sep + Join(sep, parts[1..])
  }

  /** Joining one more part appends the separator and that part. */
  lemma {:induction false} JoinSnoc(sep: string, parts: seq<string>, p: string)
    ensures Join(sep, parts + [p]) == if parts == [] then p else Join(sep, parts) + sep + p
    decreases |parts|
  {
    if |parts| >= 2 {
      assert (parts + [p])[1..] == parts[1..] + [p];
      JoinSnoc(sep, parts[1..], p);
    } else if |parts| == 1 {
      assert (parts + [p])[1..] == [p];
    }
  }

  /** The text before the first separator character. */
  function TakeLine(s: string, sep: char): (r: string)
    ensures |r| <= |s| && r == s[..|r|] && sep !in r
    ensures |r| < |s| ==> s[|r|] == sep
  {
    if s == [] || s[0] == sep then [] else [s[0]] + TakeLine(s[1..], sep)
  }

  /** `s.split(sep)` for a one-character separator. */
  function Split(s: string, sep: char): (r: seq<string>)
    ensures |r| >= 1
    decreases |s|
  {
    var line := TakeLine(s, sep);
    if |line| == |s| then [s] else [line] + Split(s[|line| + 1..], sep)
  }

  lemma {:induction false} TakeLineOf(a: string, b: string, sep: char)
    requires sep !in a
    ensures TakeLine(a + [sep] + b, sep) == a
    ensures TakeLine(a, sep) == a
    decreases |a|
  {
    if a != [] {
      assert (a + [sep] + b)[1..] == a[1..] + [sep] + b;
      TakeLineOf(a[1..], b, sep);
    }
  }

  /** Splitting a join on its one-character separator gives the parts back,
      provided no part contains the separator. */
  lemma {:induction false} SplitJoin(parts: seq<string>, sep: char)
    requires parts != []
    requires forall k :: 0 <= k < |parts| ==> sep !in parts[k]
    ensures Split(Join([sep], parts), sep) == parts
    decreases |parts|
  {
    if |parts| == 1 {
      TakeLineOf(parts[0], [], sep);
    } else {
      var rest := Join([sep], parts[1..]);
      var s := parts[0] + [sep] + rest;
      TakeLineOf(parts[0], rest, sep);
      assert s[|parts[0]| + 1..] == rest;
      SplitJoin(parts[1..], sep);
    }
  }

  /** The characters of `s` that satisfy `keep`, in order. */
  function Filter(s: string, keep: char -> bool): (r: string)
    ensures |r| <= |s|
    ensures forall i :: 0 <= i < |r| ==> keep(r[i])
  {
    if s == [] then []
    else (if keep(s[0]) then [s[0]] else []) + Filter(s[1..], keep)
  }

  lemma {:induction false} FilterAll(s: string, keep: char -> bool)
    requires forall i :: 0 <= i < |s| ==> keep(s[i])
    ensures Filter(s, keep) == s
    decreases |s|
  {
    if s != [] {
      FilterAll(s[1..], keep);
    }
  }

  /** Filtering distributes over concatenation: nothing is reordered. */
  lemma {:induction false} FilterAppend(a: string, b: string, keep: char -> bool)
    ensures Filter(a + b, keep) == Filter(a, keep) + Filter(b, keep)
    decreases |a|
  {
    if a != [] {
      assert (a + b)[0] == a[0];
      assert (a + b)[1..] == a[1..] + b;
      FilterAppend(a[1..], b, keep);
    } else {
      assert a + b == b;
    }
  }

  /** Filtering one more character appends it exactly when it passes: every
      passing character is kept, in place. */
  lemma FilterSnoc(s: string, c: char, keep: char -> bool)
    ensures Filter(s + [c], keep) == Filter(s, keep) + (if keep(c) then [c] else [])
  {
    FilterAppend(s, [c], keep);
    assert [c][1..] == [];
  }

  /** `s.replace(a, b)` for single characters. */
  function ReplaceChar(s: string, a: char, b: char): (r: string)
    ensures |r| == |s|
    ensures forall i :: 0 <= i < |s| ==> r[i] == (if s[i] == a then b else s[i])
  {
    seq(|s|, i requires 0 <= i < |s| => if s[i] == a then b else s[i])
  }
}
