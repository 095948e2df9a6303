/** The Python string primitives the parser relies on: whitespace, `strip()`,
    `startswith`, `partition` on one character, and parenthesis depth. */
module Text {

  /** Python's `str.isspace()` on one character (the table of Python 3.4 and
      later). The same code points are what
      `\s` matches in a `str` regular expression and what `str.strip()` removes. */
  predicate IsSpace(c: char) {
    var n := c as int;
    || (9 <= n <= 13)
    || (28 <= n <= 32)
    || n == 0x85
    || n == 0xA0
    || n == 0x1680
    || (0x2000 <= n <= 0x200A)
    || n == 0x2028
    || n == 0x2029
    || n == 0x202F
    || n == 0x205F
    || n == 0x3000
  }

  predicate AllSpace(s: string) {
    forall i | 0 <= i < |s| :: IsSpace(s[i])
  }

  predicate NoSpace(s: string) {
    forall i | 0 <= i < |s| :: !IsSpace(s[i])
  }

  /** Neither end of `s` is whitespace. */
  predicate IsTrimmed(s: string) {
    |s| == 0 || (!IsSpace(s[0]) && !IsSpace(s[|s| - 1]))
  }

  /** Number of whitespace characters in `s`. */
  function SpaceCount(s: string): nat {
    if |s| == 0 then 0 else (if IsSpace(s[0]) then 1 else 0) + SpaceCount(s[1..])
  }

  lemma {:induction false} SpaceCountAppend(a: string, b: string)
    ensures SpaceCount(a + b) == SpaceCount(a) + SpaceCount(b)
    decreases |a|
  {
    if |a| > 0 {
      assert (a + b)[1..] == a[1..] + b;
      SpaceCountAppend(a[1..], b);
    } else {
      assert a + b == b;
    }
  }

  lemma {:induction false} SpaceCountZero(s: string)
    ensures SpaceCount(s) == 0 <==> NoSpace(s)
    decreases |s|
  {
    if |s| > 0 {
      SpaceCountZero(s[1..]);
      assert forall i | 1 <= i < |s| :: s[i] == s[1..][i - 1];
    }
  }

  lemma {:induction false} SpaceCountSuffix(s: string, e: nat)
    requires e <= |s|
    ensures SpaceCount(s[e..]) <= SpaceCount(s)
    ensures SpaceCount(s[e..]) + SpaceCount(s[..e]) == SpaceCount(s)
  {
    assert s == s[..e] + s[e..];
    SpaceCountAppend(s[..e], s[e..]);
  }

  function StartsWith(s: string, prefix: string): bool {
    |prefix| <= |s| && s[..|prefix|] == prefix
  }

  /** The first index at or after `j` that does not hold whitespace, or `|s|`. */
  function SkipSpaces(s: string, j: nat): (e: nat)
    requires j <= |s|
    ensures j <= e <= |s|
    ensures e < |s| ==> !IsSpace(s[e])
    decreases |s| - j
  {
    if j < |s| && IsSpace(s[j]) then SkipSpaces(s, j + 1) else j
  }

  /** Everything `SkipSpaces` skips is whitespace. */
  lemma {:induction false} SkipSpacesSkipsSpace(s: string, j: nat)
    requires j <= |s|
    ensures forall i | j <= i < SkipSpaces(s, j) :: IsSpace(s[i])
    decreases |s| - j
  {
    if j < |s| && IsSpace(s[j]) {
      SkipSpacesSkipsSpace(s, j + 1);
    }
  }

  /** The least `b` in `[lo, j]` such that `s[b..j]` is all whitespace. */
  function SkipSpacesBack(s: string, lo: nat, j: nat): (b: nat)
    requires lo <= j <= |s|
    ensures lo <= b <= j
    ensures b > lo ==> !IsSpace(s[b - 1])
    decreases j - lo
  {
    if lo < j && IsSpace(s[j - 1]) then SkipSpacesBack(s, lo, j - 1) else j
  }

  /** Everything `SkipSpacesBack` skips is whitespace. */
  lemma {:induction false} SkipSpacesBackSkipsSpace(s: string, lo: nat, j: nat)
    requires lo <= j <= |s|
    ensures forall i | SkipSpacesBack(s, lo, j) <= i < j :: IsSpace(s[i])
    decreases j - lo
  {
    if lo < j && IsSpace(s[j - 1]) {
      SkipSpacesBackSkipsSpace(s, lo, j - 1);
    }
  }

  /** Python's `s.strip()`: `s` with the whitespace at both ends removed. */
  function Trim(s: string): (r: string)
    ensures IsTrimmed(r)
    ensures |r| <= |s|
  {
    var a := SkipSpaces(s, 0);
    s[a..SkipSpacesBack(s, a, |s|)]
  }

  /** What `strip()` removes is whitespace, at the two ends only. */
  lemma TrimIsSlice(s: string)
    ensures var r := Trim(s);
            exists a :: 0 <= a <= |s| - |r| && r == s[a..a + |r|]
                        && AllSpace(s[..a]) && AllSpace(s[a + |r|..])
  {
    var a := SkipSpaces(s, 0);
    var b := SkipSpacesBack(s, a, |s|);
    SkipSpacesSkipsSpace(s, 0);
    SkipSpacesBackSkipsSpace(s, a, |s|);
    assert Trim(s) == s[a..b];
    assert AllSpace(s[..a]);
    assert AllSpace(s[b..]);
  }

  lemma TrimKeepsTrimmed(s: string)
    requires IsTrimmed(s)
    ensures Trim(s) == s
  {
  }

  /** `strip()` is idempotent. */
  lemma TrimIdempotent(s: string)
    ensures Trim(Trim(s)) == Trim(s)
  {
    TrimKeepsTrimmed(Trim(s));
  }

  /** Python's `s.partition(sep)` for a one-character separator, as the pair
      (part before the first `sep`, part after it); the middle element is not
      needed here. */
  function Partition(s: string, sep: char): (r: (string, string))
    ensures sep in s ==> s == r.0 + [sep] + r.1 && sep !in r.0
    ensures sep !in s ==> r == (s, "")
    decreases |s|
  {
    if |s| == 0 then ("", "")
    else if s[0] == sep then ("", s[1..])
    else
      var (h, t) := Partition(s[1..], sep);
      assert s == [s[0]] + s[1..];
      ([s[0]] + h, t)
  }

  /** `partition` splits at the first occurrence of the separator. */
  lemma {:induction false} PartitionAt(s: string, sep: char, i: nat)
    requires i < |s| && s[i] == sep && sep !in s[..i]
    ensures Partition(s, sep) == (s[..i], s[i + 1..])
    decreases i
  {
    if i > 0 {
      assert s[0] in s[..i];
      assert s[1..][..i - 1] == s[1..i];
      assert sep !in s[1..][..i - 1];
      PartitionAt(s[1..], sep, i - 1);
      assert s[..i] == [s[0]] + s[1..i];
    }
  }

  /** A separator-free text is the whole first part. */
  lemma PartitionNone(s: string, sep: char)
    requires sep !in s
    ensures Partition(s, sep) == (s, "")
  {
  }

  /** `strip()` of one space followed by stripped text. */
  lemma TrimSpacePrefix(t: string)
    requires IsTrimmed(t)
    ensures Trim([' '] + t) == t
  {
    var s := [' '] + t;
    assert IsSpace(s[0]);
    if |t| > 0 {
      assert s[1] == t[0];
      assert SkipSpaces(s, 1) == 1;
      assert SkipSpaces(s, 0) == 1;
      assert s[|s| - 1] == t[|t| - 1];
      assert SkipSpacesBack(s, 1, |s|) == |s|;
      assert s[1..] == t;
    } else {
      assert SkipSpaces(s, 0) == 1;
    }
  }

  /** A non-empty text is its first character followed by the rest. */
  lemma ConsAppend(a: string, c: string)
    requires |a| > 0
    ensures [a[0]] + (a[1..] + c) == a + c
  {
    assert a == [a[0]] + a[1..];
  }

  /** Change in parenthesis depth caused by one character. */
  function Delta(c: char): int {
    if c == '(' then 1 else if c == ')' then -1 else 0
  }

  /** Parenthesis depth reached after reading `s` from depth 0: the number of
      opening minus the number of closing parentheses. */
  function Depth(s: string): int
    decreases |s|
  {
    if |s| == 0 then 0 else Depth(s[..|s| - 1]) + Delta(s[|s| - 1])
  }

  /** Text without parentheses stays at depth 0. */
  lemma {:induction false} DepthNoParens(s: string)
    requires '(' !in s && ')' !in s
    ensures Depth(s) == 0
    decreases |s|
  {
    if |s| > 0 {
      assert s[|s| - 1] in s;
      var t := s[..|s| - 1];
      assert forall c | c in t :: c in s;
      DepthNoParens(t);
    }
  }

  lemma DepthStep(s: string, i: nat)
    requires i < |s|
    ensures Depth(s[..i + 1]) == Depth(s[..i]) + Delta(s[i])
  {
    assert s[..i + 1][..i] == s[..i];
  }

  lemma DepthSliceStep(s: string, lo: nat, i: nat)
    requires lo <= i < |s|
    ensures Depth(s[lo..i + 1]) == Depth(s[lo..i]) + Delta(s[i])
  {
    assert s[lo..i + 1][..i - lo] == s[lo..i];
  }
}
