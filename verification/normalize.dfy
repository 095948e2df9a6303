/** The space normaliser `remove_type_spaces`: the two regular-expression
    substitutions `func\(.*\)\s+` -> `func()_` and `chan\s+` -> `chan_`, written
    out as sequence functions. `re.sub` finds the leftmost match, replaces it,
    and carries on after it; `.` matches any character except a newline, and
    `\s` matches exactly `Text.IsSpace`. */
module Normalize {
  import opened Text
  import opened Outcomes

  /** A `)` at `k` directly followed by whitespace: where `\)\s+` can match. */
  predicate CloseThenSpace(s: string, k: int) {
    0 <= k && k + 1 < |s| && s[k] == ')' && IsSpace(s[k + 1])
  }

  /** How far `.*` starting at `j` can reach: the first newline at or after
      `j`, or the end of `s`. */
  function LineEnd(s: string, j: nat): (e: nat)
    requires j <= |s|
    ensures j <= e <= |s|
    ensures forall i | j <= i < e :: s[i] != '\n'
    ensures e < |s| ==> s[e] == '\n'
    decreases |s| - j
  {
    if j < |s| && s[j] != '\n' then LineEnd(s, j + 1) else j
  }

  /** The greatest `k` in `[lo, hi)` with `CloseThenSpace(s, k)`, if any. */
  function LastCloseThenSpace(s: string, lo: nat, hi: nat): (r: Option<nat>)
    requires lo <= hi <= |s|
    ensures r.Some? ==> lo <= r.value < hi && CloseThenSpace(s, r.value)
    ensures r.Some? ==> forall k | r.value < k < hi :: !CloseThenSpace(s, k)
    ensures r.None? ==> forall k | lo <= k < hi :: !CloseThenSpace(s, k)
    decreases hi - lo
  {
    if lo == hi then None
    else if CloseThenSpace(s, hi - 1) then Some(hi - 1)
    else LastCloseThenSpace(s, lo, hi - 1)
  }

  /** The end of the match of `func\(.*\)\s+` that starts at index 0 of `s`,
      if there is one. Greedy `.*` backtracks to the LAST `)` followed by
      whitespace that lies on the same line; `\s+` then takes the whole run. */
  function FuncMatchEnd(s: string): (e: Option<nat>)
    ensures e.Some? <==>
              StartsWith(s, "func(")
              && exists k :: 5 <= k < LineEnd(s, 5) && CloseThenSpace(s, k)
    ensures e.Some? ==> 7 <= e.value <= |s|
    ensures e.Some? ==> IsSpace(s[e.value - 1])
    ensures e.Some? && e.value < |s| ==> !IsSpace(s[e.value])
    ensures e.Some? ==>
              exists k | 5 <= k < LineEnd(s, 5) && CloseThenSpace(s, k) ::
                && (forall k' | k < k' < LineEnd(s, 5) :: !CloseThenSpace(s, k'))
                && k + 2 <= e.value
                && forall j | k + 1 <= j < e.value :: IsSpace(s[j])
  {
    if StartsWith(s, "func(") then
      match LastCloseThenSpace(s, 5, LineEnd(s, 5))
      case None => None
      case Some(k) => SkipSpacesSkipsSpace(s, k + 1); Some(SkipSpaces(s, k + 1))
    else
      None
  }

  /** The end of the match of `chan\s+` that starts at index 0 of `s`, if any. */
  function ChanMatchEnd(s: string): (e: Option<nat>)
    ensures e.Some? <==> |s| >= 5 && s[..4] == "chan" && IsSpace(s[4])
    ensures e.Some? ==> 5 <= e.value <= |s|
    ensures e.Some? && e.value < |s| ==> !IsSpace(s[e.value])
    ensures e.Some? ==> forall j | 4 <= j < e.value :: IsSpace(s[j])
  {
    if |s| >= 5 && s[..4] == "chan" && IsSpace(s[4]) then
      SkipSpacesSkipsSpace(s, 4);
      Some(SkipSpaces(s, 4))
    else
      None
  }

  /** `re.sub(r"func\(.*\)\s+", "func()_", s)`. */
  function FuncSub(s: string): string
    decreases |s|
  {
    if |s| == 0 then ""
    else
      match FuncMatchEnd(s)
      case Some(e) => "func()_" + FuncSub(s[e..])
      case None => [s[0]] + FuncSub(s[1..])
  }

  /** `re.sub(r"chan\s+", "chan_", s)`. */
  function ChanSub(s: string): string
    decreases |s|
  {
    if |s| == 0 then ""
    else
      match ChanMatchEnd(s)
      case Some(e) => "chan_" + ChanSub(s[e..])
      case None => [s[0]] + ChanSub(s[1..])
  }

  /** `chan` at `i` directly followed by whitespace. */
  predicate ChanSpaceAt(s: string, i: int) {
    0 <= i && i + 5 <= |s| && s[i..i + 4] == "chan" && IsSpace(s[i + 4])
  }

  /** `remove_type_spaces`: a copy of a segment in which a function type's
      `func(...)` and the whitespace after it become `func()_`, and `chan` with
      the whitespace after it becomes `chan_`. */
  function RemoveTypeSpaces(part: string): string {
    ChanSub(FuncSub(part))
  }

  /** The normalised copy never gains whitespace, equals the segment when the
      segment has no whitespace, and has no `chan` followed by whitespace. */
  lemma RemoveTypeSpacesFacts(part: string)
    ensures SpaceCount(RemoveTypeSpaces(part)) <= SpaceCount(part)
    ensures NoSpace(part) ==> RemoveTypeSpaces(part) == part
    ensures forall i :: !ChanSpaceAt(RemoveTypeSpaces(part), i)
  {
    FuncSubSpaceCount(part);
    ChanSubSpaceCount(FuncSub(part));
    FuncSubNoSpace(part);
    ChanSubNoSpace(part);
    ChanSubNoChanSpace(FuncSub(part));
  }

  // ---------------------------------------------------------------------------
  // The substitutions never add whitespace.

  lemma SpaceCountLiteral()
    ensures SpaceCount("func()_") == 0
    ensures SpaceCount("chan_") == 0
  {
    SpaceCountZero("func()_");
    SpaceCountZero("chan_");
  }

  lemma {:induction false} FuncSubSpaceCount(s: string)
    ensures SpaceCount(FuncSub(s)) <= SpaceCount(s)
    decreases |s|
  {
    if |s| > 0 {
      match FuncMatchEnd(s)
      case Some(e) =>
        FuncSubSpaceCount(s[e..]);
        SpaceCountSuffix(s, e);
        SpaceCountLiteral();
        SpaceCountAppend("func()_", FuncSub(s[e..]));
      case None =>
        FuncSubSpaceCount(s[1..]);
        SpaceCountAppend([s[0]], FuncSub(s[1..]));
        SpaceCountSuffix(s, 1);
    }
  }

  lemma {:induction false} ChanSubSpaceCount(s: string)
    ensures SpaceCount(ChanSub(s)) <= SpaceCount(s)
    decreases |s|
  {
    if |s| > 0 {
      match ChanMatchEnd(s)
      case Some(e) =>
        ChanSubSpaceCount(s[e..]);
        SpaceCountSuffix(s, e);
        SpaceCountLiteral();
        SpaceCountAppend("chan_", ChanSub(s[e..]));
      case None =>
        ChanSubSpaceCount(s[1..]);
        SpaceCountAppend([s[0]], ChanSub(s[1..]));
        SpaceCountSuffix(s, 1);
    }
  }

  // ---------------------------------------------------------------------------
  // Text with nothing to match is left as it is.

  /** With no `)` followed by whitespace, `func\(.*\)\s+` never matches. */
  lemma {:induction false} FuncSubNoMatch(s: string)
    requires forall k :: !CloseThenSpace(s, k)
    ensures FuncSub(s) == s
    decreases |s|
  {
    if |s| > 0 {
      assert forall k :: !CloseThenSpace(s[1..], k) by {
        forall k ensures !CloseThenSpace(s[1..], k) {
          assert !CloseThenSpace(s, k + 1);
        }
      }
      FuncSubNoMatch(s[1..]);
    }
  }

  /** With no `chan` followed by whitespace, `chan\s+` never matches. */
  lemma {:induction false} ChanSubNoMatch(s: string)
    requires forall i :: !ChanSpaceAt(s, i)
    ensures ChanSub(s) == s
    decreases |s|
  {
    if |s| > 0 {
      assert !ChanSpaceAt(s, 0);
      ChanSpaceShift(s);
      ChanSubNoMatch(s[1..]);
      assert ChanSub(s) == [s[0]] + s[1..];
    }
  }

  /** Dropping the first character cannot create `chan` followed by
      whitespace. */
  lemma ChanSpaceShift(s: string)
    requires |s| > 0 && forall i :: !ChanSpaceAt(s, i)
    ensures forall i :: !ChanSpaceAt(s[1..], i)
  {
    forall i ensures !ChanSpaceAt(s[1..], i) {
      assert !ChanSpaceAt(s, i + 1);
      if 0 <= i && i + 5 <= |s[1..]| {
        assert s[1..][i..i + 4] == s[i + 1..i + 5];
      }
    }
  }

  lemma FuncSubNoSpace(s: string)
    ensures NoSpace(s) ==> FuncSub(s) == s
  {
    if NoSpace(s) {
      FuncSubNoMatch(s);
    }
  }

  lemma ChanSubNoSpace(s: string)
    ensures NoSpace(s) ==> ChanSub(s) == s
  {
    if NoSpace(s) {
      ChanSubNoMatch(s);
    }
  }

  /** Where no `func(` starts, the first character is copied. */
  lemma FuncSubSkip(s: string)
    requires |s| > 0 && !StartsWith(s, "func(")
    ensures FuncSub(s) == [s[0]] + FuncSub(s[1..])
  {
    assert FuncMatchEnd(s).None?;
  }

  /** Where no `chan` starts, the first character is copied. */
  lemma ChanSubSkip(s: string)
    requires |s| > 0 && !(|s| >= 5 && s[..4] == "chan")
    ensures ChanSub(s) == [s[0]] + ChanSub(s[1..])
  {
    assert ChanMatchEnd(s).None?;
  }

  /** A stretch with no `x` that does not end with `c` cannot hold the start
      of a word whose first two letters are `c` and `x`, nor can that start
      straddle its end. */
  lemma NoPairStart(a: string, b: string, c: char, x: char)
    requires |a| > 0 && x !in a && a[|a| - 1] != c
    ensures var s := a + b;
            && s[0] == a[0]
            && s[1..] == a[1..] + b
            && (|s| > 1 ==> s[0] != c || s[1] != x)
  {
    var s := a + b;
    if |a| > 1 {
      assert s[1] == a[1] && a[1] in a;
    }
  }

  /** No `func(` match can start in a stretch that has no `u` and does not
      end with `f`: the stretch is copied. */
  lemma {:induction false} FuncSubCopy(a: string, b: string)
    requires 'u' !in a && (|a| > 0 ==> a[|a| - 1] != 'f')
    ensures FuncSub(a + b) == a + FuncSub(b)
    decreases |a|
  {
    if |a| > 0 {
      var s := a + b;
      NoPairStart(a, b, 'f', 'u');
      assert !StartsWith(s, "func(") by {
        if |s| >= 5 {
          assert s[..5][0] == s[0] && s[..5][1] == s[1];
        }
      }
      FuncSubSkip(s);
      assert |a[1..]| > 0 ==> a[1..][|a[1..]| - 1] == a[|a| - 1];
      FuncSubCopy(a[1..], b);
      ConsAppend(a, FuncSub(b));
    } else {
      assert a + b == b;
    }
  }

  /** No `chan` match can start in a stretch that has no `h` and does not end
      with `c`: the stretch is copied. */
  lemma {:induction false} ChanSubCopy(a: string, b: string)
    requires 'h' !in a && (|a| > 0 ==> a[|a| - 1] != 'c')
    ensures ChanSub(a + b) == a + ChanSub(b)
    decreases |a|
  {
    if |a| > 0 {
      var s := a + b;
      NoPairStart(a, b, 'c', 'h');
      assert !(|s| >= 5 && s[..4] == "chan") by {
        if |s| >= 5 {
          assert s[..4][0] == s[0] && s[..4][1] == s[1];
        }
      }
      ChanSubSkip(s);
      assert |a[1..]| > 0 ==> a[1..][|a[1..]| - 1] == a[|a| - 1];
      ChanSubCopy(a[1..], b);
      ConsAppend(a, ChanSub(b));
    } else {
      assert a + b == b;
    }
  }

  /** Without a `)` there is nothing for `func\(.*\)\s+` to match. */
  lemma FuncSubNoClose(s: string)
    requires ')' !in s
    ensures FuncSub(s) == s
  {
    forall k ensures !CloseThenSpace(s, k) {
      if 0 <= k < |s| {
        assert s[k] in s;
      }
    }
    FuncSubNoMatch(s);
  }

  /** Without an `h` there is nothing for `chan\s+` to match. */
  lemma ChanSubNoH(s: string)
    requires 'h' !in s
    ensures ChanSub(s) == s
  {
    forall i ensures !ChanSpaceAt(s, i) {
      if 0 <= i && i + 5 <= |s| {
        assert s[i + 1] in s;
        assert s[i..i + 4][1] == s[i + 1];
      }
    }
    ChanSubNoMatch(s);
  }

  /** When the text opens with `func(`, has no newline, and its last `)` is
      followed by whitespace, the match runs to the end of that whitespace. */
  lemma FuncMatchEndAt(s: string, k: nat)
    requires StartsWith(s, "func(") && '\n' !in s
    requires 5 <= k && CloseThenSpace(s, k)
    requires forall j | k < j < |s| :: s[j] != ')'
    ensures FuncMatchEnd(s) == Some(SkipSpaces(s, k + 1))
  {
    var e := LineEnd(s, 5);
    assert e == |s|;
    var m := LastCloseThenSpace(s, 5, e);
    assert m.Some?;
    assert m.value == k;
  }

  /** A one-line function type whose last `)` is followed by one space and a
      result type without `)` collapses to `func()_` and that result type. */
  lemma FuncTypeCollapse(x: string, y: string)
    requires '\n' !in x && '\n' !in y && ')' !in y
    requires |y| > 0 && !IsSpace(y[0])
    ensures FuncSub("func(" + x + ") " + y) == "func()_" + y
  {
    var s := "func(" + x + ") " + y;
    var k := 5 + |x|;
    assert s[..5] == "func(";
    assert s[5..k] == x;
    assert s[k] == ')' && s[k + 1] == ' ';
    assert s[k + 2..] == y;
    forall j | 0 <= j < |s| ensures s[j] != '\n' && (k < j ==> s[j] != ')') {
      if 5 <= j < k {
        assert s[j] == s[5..k][j - 5];
        assert x[j - 5] in x;
      } else if j >= k + 2 {
        assert s[j] == s[k + 2..][j - k - 2];
        assert y[j - k - 2] in y;
      }
    }
    FuncMatchEndAt(s, k);
    assert s[k + 2] == y[0];
    assert SkipSpaces(s, k + 2) == k + 2;
    assert SkipSpaces(s, k + 1) == k + 2;
    assert s[k + 2..] == y;
    FuncSubNoClose(y);
  }

  /** `chan`, one space and an element type without `h` becomes `chan_` and
      that element type. */
  lemma ChanCollapse(y: string)
    requires |y| > 0 && !IsSpace(y[0]) && 'h' !in y
    ensures ChanSub("chan " + y) == "chan_" + y
  {
    var s := "chan " + y;
    assert s[..4] == "chan" && s[4] == ' ' && s[5] == y[0];
    assert SkipSpaces(s, 5) == 5;
    assert SkipSpaces(s, 4) == 5;
    assert s[5..] == y;
    ChanSubNoH(y);
  }

  /** A segment with neither `)` nor `h` is left unchanged by normalisation. */
  lemma RemoveTypeSpacesPlain(part: string)
    requires ')' !in part && 'h' !in part
    ensures RemoveTypeSpaces(part) == part
  {
    FuncSubNoClose(part);
    ChanSubNoH(part);
  }

  // ---------------------------------------------------------------------------
  // After `chan\s+` -> `chan_`, no `chan` is followed by whitespace.

  /** `chan\s+` -> `chan_` keeps the first character. */
  lemma ChanSubHead(s: string)
    requires |s| > 0
    ensures |ChanSub(s)| > 0 && ChanSub(s)[0] == s[0]
  {
  }

  /** Where no match can start, the first character is copied. */
  lemma ChanSubCons(s: string)
    requires |s| > 0 && s[0] != 'c'
    ensures ChanSub(s) == [s[0]] + ChanSub(s[1..])
  {
  }

  lemma {:induction false} ChanSubNoChanSpace(s: string)
    ensures forall i :: !ChanSpaceAt(ChanSub(s), i)
    decreases |s|
  {
    if |s| > 0 {
      var r := ChanSub(s);
      match ChanMatchEnd(s)
      case Some(e) =>
        var rest := ChanSub(s[e..]);
        assert r == "chan_" + rest;
        ChanSubNoChanSpace(s[e..]);
        forall i ensures !ChanSpaceAt(r, i) {
          if 5 <= i && i + 5 <= |r| {
            assert r[i..i + 4] == rest[i - 5..i - 1];
            assert r[i + 4] == rest[i - 1];
            assert !ChanSpaceAt(rest, i - 5);
          } else if 0 <= i < 5 && i + 5 <= |r| {
            assert r[i] == "chan_"[i];
            assert i == 0 ==> r[4] == '_';
          }
        }
      case None =>
        var rest := ChanSub(s[1..]);
        assert r == [s[0]] + rest;
        ChanSubNoChanSpace(s[1..]);
        forall i ensures !ChanSpaceAt(r, i) {
          if 1 <= i && i + 5 <= |r| {
            assert r[i..i + 4] == rest[i - 1..i + 3];
            assert !ChanSpaceAt(rest, i - 1);
          } else if i == 0 && ChanSpaceAt(r, 0) {
            ChanSpaceAtHead(s);
          }
        }
    }
  }

  /** If the substituted text begins with `chan` and whitespace, a match
      started at index 0 of the original text. */
  lemma ChanSpaceAtHead(s: string)
    requires |s| > 0
    requires ChanSpaceAt([s[0]] + ChanSub(s[1..]), 0)
    ensures ChanMatchEnd(s).Some?
  {
    var r := [s[0]] + ChanSub(s[1..]);
    assert r[..4] == "chan";
    assert r[1] == 'h' && r[2] == 'a' && r[3] == 'n';
    ChanSubHead(s[1..]);
    assert s[1] == 'h';
    ChanSubCons(s[1..]);
    assert s[1..][1..] == s[2..];
    ChanSubHead(s[2..]);
    assert s[2] == 'a';
    ChanSubCons(s[2..]);
    assert s[2..][1..] == s[3..];
    ChanSubHead(s[3..]);
    assert s[3] == 'n';
    ChanSubCons(s[3..]);
    assert s[3..][1..] == s[4..];
    ChanSubHead(s[4..]);
    assert s[4] == r[4];
    assert s[..4] == "chan";
  }
}
