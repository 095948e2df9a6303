/** The cases of the repository's unit tests, stated as lemmas about the model,
    together with the edge cases the code handles without a test. Each case is
    reduced to a few shapes of segment, proved once for any text of that
    shape.

    Each concrete case takes its literal as a parameter, as in
    `requires p == "chan int" ensures !IsNamed(p)`, rather than writing the
    literal into the `ensures`: the verifier then meets the literal once, as
    an equation it can use on demand, instead of unfolding the model's
    functions over it, which keeps each case within its resource budget. */
module Examples {
  import opened Text
  import opened Outcomes
  import opened Normalize
  import opened Classify
  import opened Segments
  import opened Params
  import opened Signature

  // ---------------------------------------------------------------------------
  // Normalisation of the segment shapes that occur in the tests.

  /** `chan T` collapses to `chan_T`. */
  lemma NormaliseChan(y: string)
    requires ')' !in y && 'h' !in y && |y| > 0 && !IsSpace(y[0])
    ensures RemoveTypeSpaces("chan " + y) == "chan_" + y
  {
    assert ')' !in "chan " + y by {
      forall i | 0 <= i < |"chan " + y| ensures ("chan " + y)[i] != ')' {
        if i >= 5 {
          assert ("chan " + y)[i] == y[i - 5];
          assert y[i - 5] in y;
        }
      }
    }
    FuncSubNoClose("chan " + y);
    ChanCollapse(y);
  }

  /** `func(X) Y` collapses to `func()_Y`. */
  lemma NormaliseFunc(x: string, y: string)
    requires '\n' !in x && '\n' !in y && ')' !in y && 'h' !in y
    requires |y| > 0 && !IsSpace(y[0])
    ensures RemoveTypeSpaces("func(" + x + ") " + y) == "func()_" + y
  {
    FuncTypeCollapse(x, y);
    assert 'h' !in "func()_" + y by {
      forall i | 0 <= i < |"func()_" + y| ensures ("func()_" + y)[i] != 'h' {
        if i >= 7 {
          assert ("func()_" + y)[i] == y[i - 7];
          assert y[i - 7] in y;
        }
      }
    }
    ChanSubNoH("func()_" + y);
  }

  /** The text of a segment, with no `)`, when pieces have none. */
  lemma NoCloseInChan(n: string, p: string, y: string)
    requires ')' !in n && ')' !in p && ')' !in y
    ensures ')' !in n + " " + p + "chan " + y
  {
  }

  /** `N PchanT` normalises to `N Pchan_T`, `P` being a prefix such as `[]`. */
  lemma NormaliseNamedChan(n: string, p: string, y: string)
    requires ')' !in n && ')' !in p && ')' !in y
    requires 'h' !in n && 'h' !in p && 'c' !in p && 'h' !in y
    requires |y| > 0 && !IsSpace(y[0])
    ensures RemoveTypeSpaces(n + " " + p + "chan " + y) == n + " " + p + "chan_" + y
  {
    NoCloseInChan(n, p, y);
    FuncSubNoClose(n + " " + p + "chan " + y);
    NamedChanSub(n, p, y);
  }

  lemma NamedChanSub(n: string, p: string, y: string)
    requires 'h' !in n && 'h' !in p && 'c' !in p && 'h' !in y
    requires |y| > 0 && !IsSpace(y[0])
    ensures ChanSub(n + " " + p + "chan " + y) == n + " " + p + "chan_" + y
  {
    var a := n + " " + p;
    assert n + " " + p + "chan " + y == a + ("chan " + y);
    assert |p| > 0 ==> a[|a| - 1] == p[|p| - 1] && p[|p| - 1] in p;
    ChanSubCopy(a, "chan " + y);
    ChanCollapse(y);
    assert a + ("chan_" + y) == n + " " + p + "chan_" + y;
  }

  /** `N func(X) Y` normalises to `N func()_Y`. */
  lemma NormaliseNamedFunc(n: string, x: string, y: string)
    requires 'u' !in n && 'h' !in n && '\n' !in x && '\n' !in y && ')' !in y && 'h' !in y
    requires |y| > 0 && !IsSpace(y[0])
    ensures RemoveTypeSpaces(n + " func(" + x + ") " + y) == n + " func()_" + y
  {
    NamedFuncSub(n, x, y);
    NoHInNamedFunc(n, y);
    ChanSubNoH(n + " func()_" + y);
  }

  lemma NamedFuncSub(n: string, x: string, y: string)
    requires 'u' !in n && '\n' !in x && '\n' !in y && ')' !in y
    requires |y| > 0 && !IsSpace(y[0])
    ensures FuncSub(n + " func(" + x + ") " + y) == n + " func()_" + y
  {
    NamedFuncText(n, x, y);
    FuncSubCopy(n + " ", "func(" + x + ") " + y);
    FuncTypeCollapse(x, y);
  }

  lemma NamedFuncText(n: string, x: string, y: string)
    requires 'u' !in n
    ensures n + " func(" + x + ") " + y == (n + " ") + ("func(" + x + ") " + y)
    ensures (n + " ") + ("func()_" + y) == n + " func()_" + y
    ensures 'u' !in n + " " && (n + " ")[|n + " "| - 1] != 'f'
  {
  }

  lemma NoHInNamedFunc(n: string, y: string)
    requires 'h' !in n && 'h' !in y
    ensures 'h' !in n + " func()_" + y
  {
  }

  // ---------------------------------------------------------------------------
  // Classifying and reading the segment shapes.

  /** A word of a signature: non-empty, with no whitespace, parenthesis,
      comma or `h` (so no `chan` starts inside it). */
  predicate Word(w: string) {
    |w| > 0 && NoSpace(w) && '(' !in w && ')' !in w && ',' !in w && 'h' !in w
  }

  lemma NoSpaceNoBlank(n: string)
    requires NoSpace(n)
    ensures ' ' !in n && '\n' !in n
  {
    forall i | 0 <= i < |n| ensures n[i] != ' ' && n[i] != '\n' {
      assert !IsSpace(n[i]);
    }
  }

  /** A segment without whitespace is read as a bare name with no type. */
  lemma BareRead(n: string)
    requires NoSpace(n)
    ensures Read(n) == Reading(n, "", "")
  {
    RemoveTypeSpacesFacts(n);
    NoSpaceNoBlank(n);
    TrimKeepsTrimmed(n);
  }

  /** A segment whose normalised text is `N U`, with `N` free of whitespace
      and parentheses, is certainly named. */
  lemma PairNamed(part: string, n: string, u: string)
    requires RemoveTypeSpaces(part) == n + " " + u
    requires NoSpace(n) && '(' !in n && ')' !in n
    ensures IsNamed(part)
  {
    var w := n + " " + u;
    assert w[..|n|] == n && w[|n|] == ' ';
    DepthNoParens(n);
    assert TopLevelSpace(w, |n|);
    IsNamedIff(part);
  }

  /** A segment `N T` whose normalised text is `N U` is read as name `N`,
      normalised type `U` and type `T`. */
  lemma PairRead(part: string, n: string, t: string, u: string)
    requires part == n + " " + t && RemoveTypeSpaces(part) == n + " " + u
    requires |n| > 0 && NoSpace(n)
    requires |t| > 0 && IsTrimmed(t) && |u| > 0 && IsTrimmed(u)
    ensures Read(part) == Reading(n, u, t)
  {
    var w := n + " " + u;
    NoSpaceNoBlank(n);
    assert w[..|n|] == n && w[|n|] == ' ' && w[|n| + 1..] == u;
    assert part[..|n|] == n && part[|n|] == ' ' && part[|n| + 1..] == t;
    assert IsTrimmed(w) && IsTrimmed(part);
    TrimKeepsTrimmed(w);
    TrimKeepsTrimmed(part);
    PartitionAt(w, ' ', |n|);
    PartitionAt(part, ' ', |n|);
  }

  /** `N T` with `T` a word is named. */
  lemma PlainPairNamed(n: string, t: string)
    requires Word(n) && Word(t)
    ensures IsNamed(n + " " + t)
  {
    RemoveTypeSpacesPlain(n + " " + t);
    PairNamed(n + " " + t, n, t);
  }

  /** `N T` with `T` a word: name `N`, type `T`. */
  lemma PlainPairRead(n: string, t: string)
    requires Word(n) && Word(t)
    ensures Read(n + " " + t) == Reading(n, t, t)
  {
    RemoveTypeSpacesPlain(n + " " + t);
    PairRead(n + " " + t, n, t, t);
  }

  /** `N PchanT`, `P` a prefix such as `[]`, is named. */
  lemma ChanPairNamed(n: string, p: string, y: string)
    requires Word(n) && NoSpace(p) && ')' !in p && 'h' !in p && 'c' !in p && Word(y)
    ensures IsNamed(n + " " + p + "chan " + y)
  {
    NormaliseNamedChan(n, p, y);
    ChanPairTexts(n, p, y);
    PairNamed(n + " " + p + "chan " + y, n, p + "chan_" + y);
  }

  /** `N PchanT`: name `N`, type `PchanT` (normalised `Pchan_T`). */
  lemma ChanPairRead(n: string, p: string, y: string)
    requires Word(n) && NoSpace(p) && ')' !in p && 'h' !in p && 'c' !in p && Word(y)
    ensures Read(n + " " + p + "chan " + y) == Reading(n, p + "chan_" + y, p + "chan " + y)
  {
    NormaliseNamedChan(n, p, y);
    ChanPairTexts(n, p, y);
    PairRead(n + " " + (p + "chan " + y), n, p + "chan " + y, p + "chan_" + y);
  }

  /** The type of `N PchanT` and its normalised form, as `PairRead` takes
      them. */
  lemma ChanPairTexts(n: string, p: string, y: string)
    requires NoSpace(p) && Word(y)
    ensures var t, u := p + "chan " + y, p + "chan_" + y;
            && IsTrimmed(t) && IsTrimmed(u)
            && n + " " + p + "chan " + y == n + " " + t
            && n + " " + p + "chan_" + y == n + " " + u
  {
    var t, u := p + "chan " + y, p + "chan_" + y;
    if |p| > 0 {
      assert t[0] == p[0] && u[0] == p[0];
    }
    assert t[|t| - 1] == y[|y| - 1] && u[|u| - 1] == y[|y| - 1];
  }

  /** `N func(X) Y` is named. */
  lemma FuncPairNamed(n: string, x: string, y: string)
    requires Word(n) && 'u' !in n && '\n' !in x && Word(y)
    ensures IsNamed(n + " func(" + x + ") " + y)
  {
    NormaliseNamedFunc(n, x, y);
    FuncPairTexts(n, x, y);
    PairNamed(n + " func(" + x + ") " + y, n, "func()_" + y);
  }

  /** `N func(X) Y`: name `N`, type `func(X) Y` (normalised `func()_Y`). */
  lemma FuncPairRead(n: string, x: string, y: string)
    requires Word(n) && 'u' !in n && '\n' !in x && Word(y)
    ensures Read(n + " func(" + x + ") " + y)
              == Reading(n, "func()_" + y, "func(" + x + ") " + y)
  {
    NoSpaceNoBlank(y);
    NormaliseNamedFunc(n, x, y);
    FuncPairTexts(n, x, y);
    PairRead(n + " " + ("func(" + x + ") " + y), n, "func(" + x + ") " + y, "func()_" + y);
  }

  /** The type of `N func(X) Y` and its normalised form, as `PairRead` takes
      them. */
  lemma FuncPairTexts(n: string, x: string, y: string)
    requires Word(y)
    ensures var t, u := "func(" + x + ") " + y, "func()_" + y;
            && IsTrimmed(t) && IsTrimmed(u)
            && n + " func(" + x + ") " + y == n + " " + t
            && n + " func()_" + y == n + " " + u
  {
    var t, u := "func(" + x + ") " + y, "func()_" + y;
    assert t[|t| - 1] == y[|y| - 1] && u[|u| - 1] == y[|y| - 1];
  }

  /** `chan T` alone is a type, not a name and a type. */
  lemma ChanNotNamed(y: string)
    requires Word(y)
    ensures !IsNamed("chan " + y)
  {
    NormaliseChan(y);
    assert NoSpace("chan_");
    NoSpaceConcat("chan_", y);
    NormalisedNoSpace("chan " + y);
  }

  /** `func(X) Y` alone is a type, not a name and a type. */
  lemma FuncNotNamed(x: string, y: string)
    requires '\n' !in x && Word(y)
    ensures !IsNamed("func(" + x + ") " + y)
  {
    NoSpaceNoBlank(y);
    NormaliseFunc(x, y);
    assert NoSpace("func()_");
    NoSpaceConcat("func()_", y);
    NormalisedNoSpace("func(" + x + ") " + y);
  }

  /** A segment whose normalised text has no whitespace is not named. */
  lemma NormalisedNoSpace(part: string)
    requires NoSpace(RemoveTypeSpaces(part))
    ensures !IsNamed(part)
  {
    IsNamedIff(part);
  }

  lemma NoSpaceConcat(a: string, b: string)
    requires NoSpace(a) && NoSpace(b)
    ensures NoSpace(a + b)
  {
    forall i | 0 <= i < |a + b| ensures !IsSpace((a + b)[i]) {
      if i >= |a| {
        assert (a + b)[i] == b[i - |a|];
      }
    }
  }

  // ---------------------------------------------------------------------------
  // `is_named`.

  /** The segments the test of `is_named` expects to be rejected: a bare
      type, a bare name, and types whose only whitespace is inside `chan` or
      a function type. */
  lemma IsNamedRejectsBare(p: string, q: string)
    requires p == "error" && q == "a"
    ensures !IsNamed(p) && !IsNamed(q)
  {
    assert Word(p) && Word(q);
    NoSpaceNotNamed(p);
    NoSpaceNotNamed(q);
  }

  lemma IsNamedRejectsChan(p: string)
    requires p == "chan int"
    ensures !IsNamed(p)
  {
    var i := "int";
    ChanNotNamed(i);
    assert p == "chan " + i;
  }

  lemma IsNamedRejectsFunc(p: string)
    requires p == "func(a, b int) error"
    ensures !IsNamed(p)
  {
    var x, e := "a, b int", "error";
    assert '\n' !in x && Word(e);
    assert p == "func(" + x + ") " + e;
    FuncNotNamed(x, e);
  }

  /** The segments the test of `is_named` expects to be accepted. */
  lemma IsNamedAcceptsPlain(p: string, q: string)
    requires p == "a int" && q == "err error"
    ensures IsNamed(p) && IsNamed(q)
  {
    var a, i, err, e := "a", "int", "err", "error";
    PlainPairNamed(a, i);
    assert p == a + " " + i;
    PlainPairNamed(err, e);
    assert q == err + " " + e;
  }

  lemma IsNamedAcceptsChan(p: string)
    requires p == "c chan int"
    ensures IsNamed(p)
  {
    var c, i := "c", "int";
    ChanPairNamed(c, "", i);
    assert p == c + " " + "" + "chan " + i;
  }

  lemma IsNamedAcceptsFunc(p: string)
    requires p == "f func(a, b int) error"
    ensures IsNamed(p)
  {
    var f, x, e := "f", "a, b int", "error";
    FuncPairText(p, f, x, e);
    FuncPairNamed(f, x, e);
  }

  lemma FuncPairText(p: string, f: string, x: string, e: string)
    requires p == "f func(a, b int) error" && f == "f" && x == "a, b int" && e == "error"
    ensures p == f + " func(" + x + ") " + e
    ensures Word(f) && 'u' !in f && '\n' !in x && Word(e)
  {
  }

  // ---------------------------------------------------------------------------
  // Clean segments and list texts.

  /** A run with no parenthesis, and no comma while outside every
      parenthesis, leaves the balance check where it was. */
  lemma {:induction false} BalancedSkip(seg: string, i: nat, j: nat, d: int)
    requires i <= j <= |seg|
    requires forall m | i <= m < j :: seg[m] != '(' && seg[m] != ')' && (d <= 0 ==> seg[m] != ',')
    ensures BalancedFrom(seg, i, d) == BalancedFrom(seg, j, d)
    decreases j - i
  {
    if i < j {
      BalancedSkip(seg, i + 1, j, d);
    }
  }

  /** Stripped text with no parenthesis or comma is a clean segment. */
  lemma CleanPlain(s: string)
    requires IsTrimmed(s) && '(' !in s && ')' !in s && ',' !in s
    ensures Clean(s)
  {
    BalancedSkip(s, 0, |s|, 0);
  }

  lemma CleanWord(w: string)
    requires Word(w)
    ensures Clean(w)
  {
    CleanPlain(w);
  }

  lemma CleanPlainPair(n: string, t: string)
    requires Word(n) && Word(t)
    ensures Clean(n + " " + t)
  {
    var s := n + " " + t;
    assert s[0] == n[0] && s[|s| - 1] == t[|t| - 1];
    CleanPlain(s);
  }

  lemma CleanChan(y: string)
    requires Word(y)
    ensures Clean("chan " + y)
  {
    var s := "chan " + y;
    assert s[|s| - 1] == y[|y| - 1];
    CleanPlain(s);
  }

  lemma CleanChanPair(n: string, p: string, y: string)
    requires Word(n) && '(' !in p && ')' !in p && ',' !in p && Word(y)
    ensures Clean(n + " " + p + "chan " + y)
  {
    var s := n + " " + p + "chan " + y;
    assert s[0] == n[0] && s[|s| - 1] == y[|y| - 1];
    CleanPlain(s);
  }

  /** `N func(X) Y`, with no parenthesis in `X`, is a clean segment: the
      commas of `X` sit inside the function type's parentheses. */
  lemma CleanFuncPair(n: string, x: string, y: string)
    requires Word(n) && '(' !in x && ')' !in x && Word(y)
    ensures Clean(n + " func(" + x + ") " + y)
  {
    var s := n + " func(" + x + ") " + y;
    var a := |n| + 5;
    var b := a + 1 + |x|;
    assert s == n + " func" + "(" + x + ")" + " " + y;
    assert s[a] == '(' && s[b] == ')' && s[b + 1] == ' ';
    assert forall m | 0 <= m < a :: s[m] != '(' && s[m] != ')' && s[m] != ',' by {
      forall m | 0 <= m < a ensures s[m] != '(' && s[m] != ')' && s[m] != ',' {
        if m < |n| {
          assert s[m] == n[m];
        } else {
          assert s[m] == " func"[m - |n|];
        }
      }
    }
    assert forall m | a + 1 <= m < b :: s[m] != '(' && s[m] != ')' by {
      forall m | a + 1 <= m < b ensures s[m] != '(' && s[m] != ')' {
        assert s[m] == x[m - a - 1];
      }
    }
    assert forall m | b + 2 <= m < |s| :: s[m] != '(' && s[m] != ')' && s[m] != ',' by {
      forall m | b + 2 <= m < |s| ensures s[m] != '(' && s[m] != ')' && s[m] != ',' {
        assert s[m] == y[m - b - 2];
      }
    }
    BalancedSkip(s, b + 2, |s|, 0);
    BalancedSkip(s, a + 1, b, 1);
    BalancedSkip(s, 0, a, 0);
    assert s[0] == n[0] && s[|s| - 1] == y[|y| - 1];
  }

  lemma ListOne(a: string)
    ensures ListText([a]) == "(" + a + ")"
  {
  }

  lemma ListTwo(a: string, b: string)
    ensures Join([a, b]) == a + ", " + b
    ensures ListText([a, b]) == "(" + a + ", " + b + ")"
  {
    assert [a, b][1..] == [b];
  }

  lemma ListThree(a: string, b: string, c: string)
    ensures Join([a, b, c]) == a + ", " + b + ", " + c
    ensures ListText([a, b, c]) == "(" + a + ", " + b + ", " + c + ")"
  {
    assert [a, b, c][1..] == [b, c];
    ListTwo(b, c);
  }

  lemma ListFour(a: string, b: string, c: string, d: string)
    ensures Join([a, b, c, d]) == a + ", " + b + ", " + c + ", " + d
    ensures ListText([a, b, c, d]) == "(" + a + ", " + b + ", " + c + ", " + d + ")"
  {
    assert [a, b, c, d][1..] == [b, c, d];
    ListThree(b, c, d);
  }

  // ---------------------------------------------------------------------------
  // `parse_param_parts`.

  /** Text that does not open with `(` is its own single segment. */
  lemma PartsOfBareType(p: string)
    requires p == "error"
    ensures ParseParamParts(p) == ["error"]
  {
    assert p[..1] == "e";
  }

  lemma PartsOfTypes(p: string)
    requires p == "(int, error)"
    ensures ParseParamParts(p) == ["int", "error"]
  {
    var i, e := "int", "error";
    assert Word(i) && Word(e);
    ListTwo(i, e);
    assert p == ListText([i, e]);
    CleanWord(i);
    CleanWord(e);
    PartsOfList([i, e]);
  }

  /** Three clean segments joined by `", "` in parentheses come back as
      they were. */
  lemma PartsOfThree(s0: string, s1: string, s2: string)
    requires Clean(s0) && Clean(s1) && Clean(s2)
    ensures ParseParamParts("(" + s0 + ", " + s1 + ", " + s2 + ")") == [s0, s1, s2]
  {
    ListThree(s0, s1, s2);
    PartsOfList([s0, s1, s2]);
  }

  lemma PartsOfGroupedNames(p: string)
    requires p == "(a, b int, err error)"
    ensures ParseParamParts(p) == ["a", "b int", "err error"]
  {
    var a, b, i, err, e := "a", "b", "int", "err", "error";
    GroupedText(p, a, b, i, err, e);
    GroupedPartsShape(a, b, i, err, e);
  }

  lemma GroupedText(p: string, a: string, b: string, i: string, err: string, e: string)
    requires p == "(a, b int, err error)"
    requires a == "a" && b == "b" && i == "int" && err == "err" && e == "error"
    ensures p == "(" + a + ", " + b + " " + i + ", " + err + " " + e + ")"
    ensures b + " " + i == "b int" && err + " " + e == "err error"
  {
  }

  lemma GroupedWords(a: string, b: string, i: string, err: string, e: string)
    requires a == "a" && b == "b" && i == "int" && err == "err" && e == "error"
    ensures Word(a) && Word(b) && Word(i) && Word(err) && Word(e)
  {
  }

  /** A bare name followed by two name-and-type segments. */
  lemma GroupedPartsShape(a: string, b: string, i: string, err: string, e: string)
    requires a == "a" && b == "b" && i == "int" && err == "err" && e == "error"
    ensures ParseParamParts("(" + a + ", " + b + " " + i + ", " + err + " " + e + ")")
              == [a, b + " " + i, err + " " + e]
  {
    GroupedWords(a, b, i, err, e);
    var s1, s2 := b + " " + i, err + " " + e;
    assert "(" + a + ", " + b + " " + i + ", " + err + " " + e + ")" == "(" + a + ", " + s1 + ", " + s2 + ")";
    CleanWord(a);
    CleanPlainPair(b, i);
    CleanPlainPair(err, e);
    PartsOfThree(a, s1, s2);
  }

  /** The commas inside a function type do not cut the list. */
  lemma PartsOfFuncShape(a: string, i: string, f: string, x: string, err: string, e: string)
    requires Word(a) && Word(i) && Word(f) && Word(err) && Word(e) && '(' !in x && ')' !in x
    ensures ParseParamParts("(" + a + " " + i + ", " + f + " func(" + x + ") " + e + ", " + err + " " + e + ")")
              == [a + " " + i, f + " func(" + x + ") " + e, err + " " + e]
  {
    var s0, s1, s2 := a + " " + i, f + " func(" + x + ") " + e, err + " " + e;
    assert "(" + a + " " + i + ", " + f + " func(" + x + ") " + e + ", " + err + " " + e + ")"
        == "(" + s0 + ", " + s1 + ", " + s2 + ")";
    CleanPlainPair(a, i);
    CleanFuncPair(f, x, e);
    CleanPlainPair(err, e);
    PartsOfThree(a + " " + i, f + " func(" + x + ") " + e, err + " " + e);
  }

  lemma NestedFuncText(p: string, a: string, i: string, f: string, x: string, err: string, e: string)
    requires p == "(a int, f func(c, d int) error, err error)"
    requires a == "a" && i == "int" && f == "f" && x == "c, d int" && err == "err" && e == "error"
    ensures p == "(" + a + " " + i + ", " + f + " func(" + x + ") " + e + ", " + err + " " + e + ")"
    ensures a + " " + i == "a int" && f + " func(" + x + ") " + e == "f func(c, d int) error"
    ensures err + " " + e == "err error"
  {
    var t := "(" + a + " " + i + ", ";
    assert t == "(a int, ";
    t := t + f + " func(" + x + ") " + e;
    assert t == "(a int, f func(c, d int) error";
    t := t + ", " + err + " " + e;
    assert t == "(a int, f func(c, d int) error, err error";
  }

  lemma NestedFuncWords(a: string, i: string, f: string, x: string, err: string, e: string)
    requires a == "a" && i == "int" && f == "f" && x == "c, d int" && err == "err" && e == "error"
    ensures Word(a) && Word(i) && Word(f) && Word(err) && Word(e) && '(' !in x && ')' !in x
  {
  }

  lemma PartsOfNestedFunc(p: string)
    requires p == "(a int, f func(c, d int) error, err error)"
    ensures ParseParamParts(p) == ["a int", "f func(c, d int) error", "err error"]
  {
    var a, i, f, x, err, e := "a", "int", "f", "c, d int", "err", "error";
    NestedFuncText(p, a, i, f, x, err, e);
    NestedFuncWords(a, i, f, x, err, e);
    PartsOfFuncShape(a, i, f, x, err, e);
  }

  /** The empty list `()` is one empty segment. */
  lemma PartsOfEmptyList(p: string)
    requires p == "()"
    ensures ParseParamParts(p) == [""]
  {
    assert Clean("");
    assert p == ListText([""]);
    PartsOfList([""]);
  }

  // ---------------------------------------------------------------------------
  // `parse_params`, for any words in the shapes of the tests.

  /** Two clean segments neither of which is named: the "just types" path. */
  lemma TypesOfTwo(t1: string, t2: string)
    requires Clean(t1) && Clean(t2) && !IsNamed(t1) && !IsNamed(t2)
    ensures ParseParams("(" + t1 + ", " + t2 + ")") == [Param(None, t1), Param(None, t2)]
  {
    var segs := [t1, t2];
    ListTwo(t1, t2);
    ParseParamsOfList(segs);
    assert !AnyNamed(segs);
  }

  /** Two plain types. */
  lemma TypesShape(t1: string, t2: string)
    requires Word(t1) && Word(t2)
    ensures ParseParams("(" + t1 + ", " + t2 + ")") == [Param(None, t1), Param(None, t2)]
  {
    CleanWord(t1);
    CleanWord(t2);
    NoSpaceNotNamed(t1);
    NoSpaceNotNamed(t2);
    TypesOfTwo(t1, t2);
  }

  /** A plain type and a channel type: `chan` does not make a name. */
  lemma TypeAndChanShape(t: string, y: string)
    requires Word(t) && Word(y)
    ensures ParseParams("(" + t + ", chan " + y + ")") == [Param(None, t), Param(None, "chan " + y)]
  {
    var c := "chan " + y;
    assert "(" + t + ", chan " + y + ")" == "(" + t + ", " + c + ")";
    CleanWord(t);
    CleanChan(y);
    NoSpaceNotNamed(t);
    ChanNotNamed(y);
    TypesOfTwo(t, c);
  }

  /** The named-path loop on two typed segments. */
  lemma BackfillTypedTwo(r0: Reading, r1: Reading)
    requires Typed(r0) && Typed(r1)
    ensures Backfill([r0, r1], [])
              == [Param(Some(r0.name), r0.realType), Param(Some(r1.name), r1.realType)]
  {
    BackfillAllTyped([r0, r1]);
  }

  /** The named-path loop on three typed segments. */
  lemma BackfillTypedThree(r0: Reading, r1: Reading, r2: Reading)
    requires Typed(r0) && Typed(r1) && Typed(r2)
    ensures Backfill([r0, r1, r2], [])
              == [Param(Some(r0.name), r0.realType), Param(Some(r1.name), r1.realType),
                  Param(Some(r2.name), r2.realType)]
  {
    BackfillAllTyped([r0, r1, r2]);
  }

  /** A list with a plain `N T` segment takes the named path. */
  lemma PlainPairInList(segs: seq<string>, k: nat, n: string, t: string)
    requires k < |segs| && segs[k] == n + " " + t && Word(n) && Word(t)
    ensures AnyNamed(segs)
  {
    PlainPairNamed(n, t);
  }

  /** A list with an `N func(X) Y` segment takes the named path. */
  lemma FuncPairInList(segs: seq<string>, k: nat, n: string, x: string, y: string)
    requires k < |segs| && segs[k] == n + " func(" + x + ") " + y
    requires Word(n) && 'u' !in n && '\n' !in x && Word(y)
    ensures AnyNamed(segs)
  {
    FuncPairNamed(n, x, y);
  }

  /** The named-path loop on a bare name followed by two typed segments. */
  lemma BackfillGrouped(a: string, b: string, t: string, c: string, u: string)
    requires t != "" && u != ""
    ensures Backfill([Reading(a, "", ""), Reading(b, t, t), Reading(c, u, u)], [])
              == [Param(Some(a), t), Param(Some(b), t), Param(Some(c), u)]
  {
    var rds := [Reading(a, "", ""), Reading(b, t, t), Reading(c, u, u)];
    assert rds[1..][1..] == rds[2..] == [Reading(c, u, u)];
    assert Backfill(rds[2..], []) == [Param(Some(c), u)] by {
      assert rds[2..][1..] == [];
      assert Emit([c], u) == [Param(Some(c), u)];
    }
    assert Backfill(rds[1..], [a]) == [Param(Some(a), t), Param(Some(b), t), Param(Some(c), u)] by {
      assert [a] + [b] == [a, b];
      assert Emit([a, b], t) == [Param(Some(a), t), Param(Some(b), t)];
    }
    assert Backfill(rds, []) == Backfill(rds[1..], [a]) by {
      assert [] + [a] == [a];
    }
  }

  /** `(A, B T, C U)` is split into its three segments. */
  lemma GroupedSegments(a: string, b: string, t: string, c: string, u: string)
    requires Word(a) && Word(b) && Word(t) && Word(c) && Word(u)
    ensures ParseParams("(" + a + ", " + b + " " + t + ", " + c + " " + u + ")")
              == ParseList([a, b + " " + t, c + " " + u])
  {
    var s1, s2 := b + " " + t, c + " " + u;
    ListThree(a, s1, s2);
    assert "(" + a + ", " + b + " " + t + ", " + c + " " + u + ")" == ListText([a, s1, s2]);
    CleanWord(a);
    CleanPlainPair(b, t);
    CleanPlainPair(c, u);
    ParseParamsOfList([a, s1, s2]);
  }

  /** The segments of `(A, B T, C U)` take the named path and read as a
      bare name and two typed segments. */
  lemma GroupedReads(a: string, b: string, t: string, c: string, u: string)
    requires Word(a) && Word(b) && Word(t) && Word(c) && Word(u)
    ensures AnyNamed([a, b + " " + t, c + " " + u])
    ensures ReadAll([a, b + " " + t, c + " " + u])
              == [Reading(a, "", ""), Reading(b, t, t), Reading(c, u, u)]
  {
    var segs := [a, b + " " + t, c + " " + u];
    PlainPairInList(segs, 1, b, t);
    BareRead(a);
    PlainPairRead(b, t);
    PlainPairRead(c, u);
  }

  /** `(A, B T, C U)`: `A` waits for the type of `B`. */
  lemma GroupedShape(a: string, b: string, t: string, c: string, u: string)
    requires Word(a) && Word(b) && Word(t) && Word(c) && Word(u)
    ensures ParseParams("(" + a + ", " + b + " " + t + ", " + c + " " + u + ")")
              == [Param(Some(a), t), Param(Some(b), t), Param(Some(c), u)]
  {
    GroupedSegments(a, b, t, c, u);
    GroupedReads(a, b, t, c, u);
    NamedPath([a, b + " " + t, c + " " + u], [Reading(a, "", ""), Reading(b, t, t), Reading(c, u, u)]);
    BackfillGrouped(a, b, t, c, u);
  }

  /** `(A I, F func(X) E, R E)` is split into its three segments. */
  lemma FuncSegments(a: string, i: string, f: string, x: string, r: string, e: string)
    requires Word(a) && Word(i) && Word(f) && Word(r) && Word(e) && '(' !in x && ')' !in x
    ensures ParseParams("(" + a + " " + i + ", " + f + " func(" + x + ") " + e + ", " + r + " " + e + ")")
              == ParseList([a + " " + i, f + " func(" + x + ") " + e, r + " " + e])
  {
    var s0, s1, s2 := a + " " + i, f + " func(" + x + ") " + e, r + " " + e;
    ListThree(s0, s1, s2);
    assert "(" + a + " " + i + ", " + f + " func(" + x + ") " + e + ", " + r + " " + e + ")"
        == ListText([s0, s1, s2]);
    CleanPlainPair(a, i);
    CleanFuncPair(f, x, e);
    CleanPlainPair(r, e);
    ParseParamsOfList([s0, s1, s2]);
  }

  lemma FuncReads(a: string, i: string, f: string, x: string, r: string, e: string)
    requires Word(a) && Word(i) && Word(f) && 'u' !in f && Word(r) && Word(e) && '\n' !in x
    ensures AnyNamed([a + " " + i, f + " func(" + x + ") " + e, r + " " + e])
    ensures ReadAll([a + " " + i, f + " func(" + x + ") " + e, r + " " + e])
              == [Reading(a, i, i), Reading(f, "func()_" + e, "func(" + x + ") " + e), Reading(r, e, e)]
  {
    var segs := [a + " " + i, f + " func(" + x + ") " + e, r + " " + e];
    PlainPairInList(segs, 0, a, i);
    PlainPairRead(a, i);
    FuncPairRead(f, x, e);
    PlainPairRead(r, e);
  }

  /** `(A I, F func(X) E, R E)`: every segment typed, the function type kept
      as written. */
  lemma FuncShape(a: string, i: string, f: string, x: string, r: string, e: string)
    requires Word(a) && Word(i) && Word(f) && 'u' !in f && Word(r) && Word(e)
    requires '(' !in x && ')' !in x && '\n' !in x
    ensures ParseParams("(" + a + " " + i + ", " + f + " func(" + x + ") " + e + ", " + r + " " + e + ")")
              == [Param(Some(a), i), Param(Some(f), "func(" + x + ") " + e), Param(Some(r), e)]
  {
    FuncSegments(a, i, f, x, r, e);
    FuncReads(a, i, f, x, r, e);
    NamedPath([a + " " + i, f + " func(" + x + ") " + e, r + " " + e],
              [Reading(a, i, i), Reading(f, "func()_" + e, "func(" + x + ") " + e), Reading(r, e, e)]);
    BackfillTypedThree(Reading(a, i, i), Reading(f, "func()_" + e, "func(" + x + ") " + e), Reading(r, e, e));
  }

  /** `(A, B func(X) E)` is split into its two segments. */
  lemma SharedFuncSegments(a: string, b: string, x: string, e: string)
    requires Word(a) && Word(b) && Word(e) && '(' !in x && ')' !in x
    ensures ParseParams("(" + a + ", " + b + " func(" + x + ") " + e + ")")
              == ParseList([a, b + " func(" + x + ") " + e])
  {
    var s1 := b + " func(" + x + ") " + e;
    ListTwo(a, s1);
    assert "(" + a + ", " + b + " func(" + x + ") " + e + ")" == ListText([a, s1]);
    CleanWord(a);
    CleanFuncPair(b, x, e);
    ParseParamsOfList([a, s1]);
  }

  lemma SharedFuncReads(a: string, b: string, x: string, e: string)
    requires Word(a) && Word(b) && 'u' !in b && Word(e) && '\n' !in x
    ensures AnyNamed([a, b + " func(" + x + ") " + e])
    ensures ReadAll([a, b + " func(" + x + ") " + e])
              == [Reading(a, "", ""), Reading(b, "func()_" + e, "func(" + x + ") " + e)]
  {
    var segs := [a, b + " func(" + x + ") " + e];
    FuncPairInList(segs, 1, b, x, e);
    BareRead(a);
    FuncPairRead(b, x, e);
  }

  /** The named-path loop on a bare name followed by one typed segment. */
  lemma BackfillShared(a: string, b: string, u: string, t: string)
    requires u != ""
    ensures Backfill([Reading(a, "", ""), Reading(b, u, t)], []) == [Param(Some(a), t), Param(Some(b), t)]
  {
    var rds := [Reading(a, "", ""), Reading(b, u, t)];
    assert rds[1..][1..] == [];
    assert Backfill(rds[1..], [a]) == [Param(Some(a), t), Param(Some(b), t)] by {
      assert [a] + [b] == [a, b];
      assert Emit([a, b], t) == [Param(Some(a), t), Param(Some(b), t)];
    }
    assert Backfill(rds, []) == Backfill(rds[1..], [a]) by {
      assert [] + [a] == [a];
    }
  }

  /** `(A, B func(X) E)`: both names share the function type. */
  lemma SharedFuncShape(a: string, b: string, x: string, e: string)
    requires Word(a) && Word(b) && 'u' !in b && Word(e) && '(' !in x && ')' !in x && '\n' !in x
    ensures ParseParams("(" + a + ", " + b + " func(" + x + ") " + e + ")")
              == [Param(Some(a), "func(" + x + ") " + e), Param(Some(b), "func(" + x + ") " + e)]
  {
    SharedFuncSegments(a, b, x, e);
    SharedFuncReads(a, b, x, e);
    NamedPath([a, b + " func(" + x + ") " + e], [Reading(a, "", ""), Reading(b, "func()_" + e, "func(" + x + ") " + e)]);
    BackfillShared(a, b, "func()_" + e, "func(" + x + ") " + e);
  }

  /** `(A I, B PchanI)` is split into its two segments. */
  lemma ChanSegments(a: string, i: string, b: string, p: string)
    requires Word(a) && Word(i) && Word(b) && '(' !in p && ')' !in p && ',' !in p
    ensures ParseParams("(" + a + " " + i + ", " + b + " " + p + "chan " + i + ")")
              == ParseList([a + " " + i, b + " " + p + "chan " + i])
  {
    var s0, s1 := a + " " + i, b + " " + p + "chan " + i;
    ListTwo(s0, s1);
    assert "(" + a + " " + i + ", " + b + " " + p + "chan " + i + ")" == ListText([s0, s1]);
    CleanPlainPair(a, i);
    CleanChanPair(b, p, i);
    ParseParamsOfList([s0, s1]);
  }

  lemma ChanReads(a: string, i: string, b: string, p: string)
    requires Word(a) && Word(i) && Word(b) && NoSpace(p) && ')' !in p && 'h' !in p && 'c' !in p
    ensures AnyNamed([a + " " + i, b + " " + p + "chan " + i])
    ensures ReadAll([a + " " + i, b + " " + p + "chan " + i])
              == [Reading(a, i, i), Reading(b, p + "chan_" + i, p + "chan " + i)]
  {
    var segs := [a + " " + i, b + " " + p + "chan " + i];
    PlainPairInList(segs, 0, a, i);
    PlainPairRead(a, i);
    ChanPairRead(b, p, i);
  }

  /** `(A I, B PchanI)`: the channel type kept as written. */
  lemma ChanShape(a: string, i: string, b: string, p: string)
    requires Word(a) && Word(i) && Word(b) && NoSpace(p) && '(' !in p && ')' !in p && ',' !in p
    requires 'h' !in p && 'c' !in p
    ensures ParseParams("(" + a + " " + i + ", " + b + " " + p + "chan " + i + ")")
              == [Param(Some(a), i), Param(Some(b), p + "chan " + i)]
  {
    ChanSegments(a, i, b, p);
    ChanReads(a, i, b, p);
    NamedPath([a + " " + i, b + " " + p + "chan " + i], [Reading(a, i, i), Reading(b, p + "chan_" + i, p + "chan " + i)]);
    BackfillTypedTwo(Reading(a, i, i), Reading(b, p + "chan_" + i, p + "chan " + i));
  }

  /** `(A I, B)` is split into its two segments. */
  lemma DanglingSegments(a: string, i: string, b: string)
    requires Word(a) && Word(i) && Word(b)
    ensures ParseParams("(" + a + " " + i + ", " + b + ")") == ParseList([a + " " + i, b])
  {
    var s0 := a + " " + i;
    ListTwo(s0, b);
    assert "(" + a + " " + i + ", " + b + ")" == ListText([s0, b]);
    CleanPlainPair(a, i);
    CleanWord(b);
    ParseParamsOfList([s0, b]);
  }

  lemma DanglingReads(a: string, i: string, b: string)
    requires Word(a) && Word(i) && Word(b)
    ensures AnyNamed([a + " " + i, b])
    ensures ReadAll([a + " " + i, b])
              == [Reading(a, i, i), Reading(b, "", "")]
  {
    var segs := [a + " " + i, b];
    PlainPairInList(segs, 0, a, i);
    PlainPairRead(a, i);
    BareRead(b);
  }

  /** The named-path loop drops a bare name left pending at the end. */
  lemma BackfillDangling(a: string, u: string, t: string, b: string)
    requires u != ""
    ensures Backfill([Reading(a, u, t), Reading(b, "", "")], []) == [Param(Some(a), t)]
  {
    var rds := [Reading(a, u, t), Reading(b, "", "")];
    assert rds[1..][1..] == [];
    assert Backfill(rds[1..], []) == Backfill([], [b]) by {
      assert [] + [b] == [b];
    }
    assert Backfill(rds, []) == Emit([a], t) + Backfill(rds[1..], []) by {
      assert [] + [a] == [a];
    }
  }

  /** `(A I, B)`: the dangling bare name `B` is dropped. */
  lemma DanglingShape(a: string, i: string, b: string)
    requires Word(a) && Word(i) && Word(b)
    ensures ParseParams("(" + a + " " + i + ", " + b + ")") == [Param(Some(a), i)]
  {
    DanglingSegments(a, i, b);
    DanglingReads(a, i, b);
    NamedPath([a + " " + i, b], [Reading(a, i, i), Reading(b, "", "")]);
    BackfillDangling(a, i, i, b);
  }

  // ---------------------------------------------------------------------------
  // `parse_params`, the cases of the unit tests.

  lemma ParamsOfBareType(p: string)
    requires p == "error"
    ensures ParseParams(p) == [Param(None, "error")]
  {
    assert p[0] == 'e';
    ParseParamsBare(p);
  }

  lemma TypesText(p: string, i: string, e: string)
    requires p == "(int, error)" && i == "int" && e == "error"
    ensures p == "(" + i + ", " + e + ")"
    ensures Word(i) && Word(e)
  {
  }

  lemma ParamsOfTypes(p: string)
    requires p == "(int, error)"
    ensures ParseParams(p) == [Param(None, "int"), Param(None, "error")]
  {
    var i, e := "int", "error";
    TypesText(p, i, e);
    TypesShape(i, e);
  }

  lemma ParamsOfGroupedNames(p: string)
    requires p == "(a, b int, err error)"
    ensures ParseParams(p) == [Param(Some("a"), "int"), Param(Some("b"), "int"), Param(Some("err"), "error")]
  {
    var a, b, i, err, e := "a", "b", "int", "err", "error";
    GroupedText(p, a, b, i, err, e);
    GroupedWords(a, b, i, err, e);
    GroupedShape(a, b, i, err, e);
  }

  lemma FuncTypeText(x: string, e: string)
    requires x == "c, d int" && e == "error"
    ensures "func(" + x + ") " + e == "func(c, d int) error"
    ensures '(' !in x && ')' !in x && '\n' !in x
  {
  }

  lemma ParamsOfNestedFunc(p: string)
    requires p == "(a int, f func(c, d int) error, err error)"
    ensures ParseParams(p)
              == [Param(Some("a"), "int"), Param(Some("f"), "func(c, d int) error"), Param(Some("err"), "error")]
  {
    var a, i, f, x, err, e := "a", "int", "f", "c, d int", "err", "error";
    NestedFuncText(p, a, i, f, x, err, e);
    NestedFuncWords(a, i, f, x, err, e);
    FuncTypeText(x, e);
    assert 'u' !in f;
    FuncShape(a, i, f, x, err, e);
  }

  lemma SharedFuncText(p: string, a: string, b: string, x: string, e: string)
    requires p == "(a, b func(c, d int) error)"
    requires a == "a" && b == "b" && x == "c, d int" && e == "error"
    ensures p == "(" + a + ", " + b + " func(" + x + ") " + e + ")"
    ensures Word(a) && Word(b) && 'u' !in b && Word(e)
  {
  }

  lemma ParamsOfSharedFunc(p: string)
    requires p == "(a, b func(c, d int) error)"
    ensures ParseParams(p) == [Param(Some("a"), "func(c, d int) error"), Param(Some("b"), "func(c, d int) error")]
  {
    var a, b, x, e := "a", "b", "c, d int", "error";
    SharedFuncText(p, a, b, x, e);
    FuncTypeText(x, e);
    SharedFuncShape(a, b, x, e);
  }

  lemma SliceChanText(p: string, a: string, i: string, b: string, q: string)
    requires p == "(a int, b []chan int)" && a == "a" && i == "int" && b == "b" && q == "[]"
    ensures p == "(" + a + " " + i + ", " + b + " " + q + "chan " + i + ")"
    ensures q + "chan " + i == "[]chan int"
    ensures Word(a) && Word(i) && Word(b) && NoSpace(q) && '(' !in q && ')' !in q && ',' !in q
    ensures 'h' !in q && 'c' !in q
  {
  }

  lemma ParamsOfSliceChan(p: string)
    requires p == "(a int, b []chan int)"
    ensures ParseParams(p) == [Param(Some("a"), "int"), Param(Some("b"), "[]chan int")]
  {
    var a, i, b, q := "a", "int", "b", "[]";
    SliceChanText(p, a, i, b, q);
    ChanShape(a, i, b, q);
  }

  lemma TypeAndChanText(p: string, i: string)
    requires p == "(int, chan int)" && i == "int"
    ensures p == "(" + i + ", chan " + i + ")" && "chan " + i == "chan int"
    ensures Word(i)
  {
  }

  lemma ParamsOfTypeAndChan(p: string)
    requires p == "(int, chan int)"
    ensures ParseParams(p) == [Param(None, "int"), Param(None, "chan int")]
  {
    var i := "int";
    TypeAndChanText(p, i);
    TypeAndChanShape(i, i);
  }

  /** A bare name with no typed segment after it is dropped. */
  lemma ParamsOfDangling(p: string)
    requires p == "(a int, b)"
    ensures ParseParams(p) == [Param(Some("a"), "int")]
  {
    var a, i, b := "a", "int", "b";
    assert p == "(" + a + " " + i + ", " + b + ")";
    assert Word(a) && Word(i) && Word(b);
    DanglingShape(a, i, b);
  }

  /** The empty list is one unnamed entry with an empty type. */
  lemma ParamsOfEmptyList(p: string)
    requires p == "()"
    ensures ParseParams(p) == [Param(None, "")]
  {
    PartsOfEmptyList(p);
    NoSpaceNotNamed("");
    assert !AnyNamed([""]);
  }

  // ---------------------------------------------------------------------------
  // `parse_func`, for any words in the shapes of the tests.

  /** A function type written as `func`, a list of clean segments, one space
      and a stripped result text. */
  lemma ParseFuncOfTexts(segs: seq<string>, l: string, r: string)
    requires |segs| > 0 && forall k | 0 <= k < |segs| :: Clean(segs[k])
    requires l == ListText(segs) && IsTrimmed(r)
    ensures ParseFunc("func" + l + " " + r) == Success(Func(ParseParams(l), ParseParams(r)))
  {
    ParseFuncOfList(segs, " " + r);
    assert "func" + l + " " + r == "func" + l + (" " + r);
    TrimSpacePrefix(r);
    assert [' '] + r == " " + r;
  }

  /** A list text opens with `(` and closes with `)`, so it is stripped. */
  lemma ListTrimmed(segs: seq<string>)
    requires |segs| > 0
    ensures IsTrimmed(ListText(segs))
  {
    var t := ListText(segs);
    assert t[0] == '(' && t[|t| - 1] == ')';
  }

  /** `(A I)` is its one segment. */
  lemma OnePairSegments(a: string, i: string)
    requires Word(a) && Word(i)
    ensures Clean(a + " " + i) && ListText([a + " " + i]) == "(" + a + " " + i + ")"
    ensures ParseParams("(" + a + " " + i + ")") == ParseList([a + " " + i])
  {
    CleanPlainPair(a, i);
    OnePairText(a, i);
    ParseParamsOfList([a + " " + i]);
  }

  /** `(A I)` written as the list of its one segment. */
  lemma OnePairText(a: string, i: string)
    ensures ListText([a + " " + i]) == "(" + a + " " + i + ")"
  {
    ListOne(a + " " + i);
    assert "(" + (a + " " + i) + ")" == "(" + a + " " + i + ")";
  }

  lemma OnePairReads(a: string, i: string)
    requires Word(a) && Word(i)
    ensures AnyNamed([a + " " + i]) && ReadAll([a + " " + i]) == [Reading(a, i, i)]
  {
    PlainPairInList([a + " " + i], 0, a, i);
    PlainPairRead(a, i);
  }

  /** The named-path loop on one typed segment. */
  lemma BackfillTypedOne(r0: Reading)
    requires Typed(r0)
    ensures Backfill([r0], []) == [Param(Some(r0.name), r0.realType)]
  {
    BackfillAllTyped([r0]);
  }

  /** `(A I)`: one named segment. */
  lemma OnePairShape(a: string, i: string)
    requires Word(a) && Word(i)
    ensures ParseParams("(" + a + " " + i + ")") == [Param(Some(a), i)]
  {
    OnePairSegments(a, i);
    OnePairReads(a, i);
    NamedPath([a + " " + i], [Reading(a, i, i)]);
    BackfillTypedOne(Reading(a, i, i));
  }

  /** `func(A I) E`. */
  lemma FuncOneShape(a: string, i: string, e: string)
    requires Word(a) && Word(i) && Word(e)
    ensures ParseFunc("func" + ("(" + a + " " + i + ")") + " " + e)
              == Success(Func([Param(Some(a), i)], [Param(None, e)]))
  {
    OnePairSegments(a, i);
    ParseFuncOfTexts([a + " " + i], "(" + a + " " + i + ")", e);
    OnePairShape(a, i);
    WordParams(e);
  }

  /** A word is a bare type: one unnamed entry. */
  lemma WordParams(w: string)
    requires Word(w)
    ensures ParseParams(w) == [Param(None, w)]
  {
    assert !StartsWith(w, "(") by {
      assert w[0] != '(';
      if |w| >= 1 {
        assert w[..1][0] == w[0];
      }
    }
    ParseParamsBare(w);
  }

  /** `(N T, M T)` is split into its two segments. */
  lemma TwoPairsSegments(n: string, m: string, t: string)
    requires Word(n) && Word(m) && Word(t)
    ensures Clean(n + " " + t) && Clean(m + " " + t)
    ensures ListText([n + " " + t, m + " " + t]) == "(" + n + " " + t + ", " + m + " " + t + ")"
    ensures ParseParams(ListText([n + " " + t, m + " " + t])) == ParseList([n + " " + t, m + " " + t])
  {
    var s0, s1 := n + " " + t, m + " " + t;
    CleanPlainPair(n, t);
    CleanPlainPair(m, t);
    ListTwo(s0, s1);
    assert "(" + s0 + ", " + s1 + ")" == "(" + n + " " + t + ", " + m + " " + t + ")";
    ParseParamsOfList([s0, s1]);
  }

  lemma TwoPairsReads(n: string, m: string, t: string)
    requires Word(n) && Word(m) && Word(t)
    ensures AnyNamed([n + " " + t, m + " " + t])
    ensures ReadAll([n + " " + t, m + " " + t]) == [Reading(n, t, t), Reading(m, t, t)]
  {
    PlainPairInList([n + " " + t, m + " " + t], 0, n, t);
    PlainPairRead(n, t);
    PlainPairRead(m, t);
  }

  /** `(N T, M T)`: two named segments of one type. */
  lemma TwoPairsShape(n: string, m: string, t: string)
    requires Word(n) && Word(m) && Word(t)
    ensures ParseParams(ListText([n + " " + t, m + " " + t])) == [Param(Some(n), t), Param(Some(m), t)]
  {
    TwoPairsSegments(n, m, t);
    TwoPairsReads(n, m, t);
    NamedPath([n + " " + t, m + " " + t], [Reading(n, t, t), Reading(m, t, t)]);
    BackfillTypedTwo(Reading(n, t, t), Reading(m, t, t));
  }

  /** `func(A I) (N I, M I)`: named results. */
  lemma FuncNamedResultsShape(a: string, i: string, n: string, m: string)
    requires Word(a) && Word(i) && Word(n) && Word(m)
    ensures ParseFunc("func" + ("(" + a + " " + i + ")") + " " + ("(" + n + " " + i + ", " + m + " " + i + ")"))
              == Success(Func([Param(Some(a), i)], [Param(Some(n), i), Param(Some(m), i)]))
  {
    var l, r := "(" + a + " " + i + ")", "(" + n + " " + i + ", " + m + " " + i + ")";
    OnePairList(a, i);
    NamedResultsShape(n, m, i);
    ParseFuncOfTexts([a + " " + i], l, r);
  }

  /** `(A I)`: the list of its one clean segment, read as one named
      parameter. */
  lemma OnePairList(a: string, i: string)
    requires Word(a) && Word(i)
    ensures Clean(a + " " + i) && ListText([a + " " + i]) == "(" + a + " " + i + ")"
    ensures ParseParams("(" + a + " " + i + ")") == [Param(Some(a), i)]
  {
    OnePairSegments(a, i);
    OnePairShape(a, i);
  }

  /** The result list `(N I, M I)`: already stripped, and read as two named
      parameters. */
  lemma NamedResultsShape(n: string, m: string, i: string)
    requires Word(n) && Word(m) && Word(i)
    ensures var r := "(" + n + " " + i + ", " + m + " " + i + ")";
            && IsTrimmed(r) && ParseParams(r) == [Param(Some(n), i), Param(Some(m), i)]
  {
    TwoPairsSegments(n, m, i);
    TwoPairsShape(n, m, i);
    ListTrimmed([n + " " + i, m + " " + i]);
  }

  /** The four segments of `(A, B I, C PchanI, D func(X) E)`. */
  function MixedSegs(a: string, b: string, i: string, c: string, q: string, d: string, x: string, e: string): seq<string> {
    [a, b + " " + i, c + " " + q + "chan " + i, d + " func(" + x + ") " + e]
  }

  lemma MixedClean(a: string, b: string, i: string, c: string, q: string, d: string, x: string, e: string)
    requires Word(a) && Word(b) && Word(i) && Word(c) && Word(d) && Word(e)
    requires '(' !in q && ')' !in q && ',' !in q && '(' !in x && ')' !in x
    ensures var segs := MixedSegs(a, b, i, c, q, d, x, e);
            forall k | 0 <= k < |segs| :: Clean(segs[k])
  {
    CleanWord(a);
    CleanPlainPair(b, i);
    CleanChanPair(c, q, i);
    CleanFuncPair(d, x, e);
  }

  /** A list whose second segment is a plain `N T` takes the named path. */
  lemma MixedNamed(a: string, b: string, i: string, c: string, q: string, d: string, x: string, e: string)
    requires Word(b) && Word(i)
    ensures AnyNamed(MixedSegs(a, b, i, c, q, d, x, e))
  {
    PlainPairInList(MixedSegs(a, b, i, c, q, d, x, e), 1, b, i);
  }

  lemma MixedReads(a: string, b: string, i: string, c: string, q: string, d: string, x: string, e: string)
    requires Word(a) && Word(b) && Word(i) && Word(c) && Word(d) && 'u' !in d && Word(e)
    requires NoSpace(q) && ')' !in q && 'h' !in q && 'c' !in q && '\n' !in x
    ensures var rds := ReadAll(MixedSegs(a, b, i, c, q, d, x, e));
            && |rds| == 4
            && rds[0] == Reading(a, "", "") && rds[1] == Reading(b, i, i)
            && rds[2] == Reading(c, q + "chan_" + i, q + "chan " + i)
            && rds[3] == Reading(d, "func()_" + e, "func(" + x + ") " + e)
  {
    MixedReadsFront(a, b, i, c, q, d, x, e);
    MixedReadsBack(a, b, i, c, q, d, x, e);
  }

  /** The bare name and the plain pair of the mixed list. */
  lemma MixedReadsFront(a: string, b: string, i: string, c: string, q: string, d: string, x: string, e: string)
    requires Word(a) && Word(b) && Word(i)
    ensures var rds := ReadAll(MixedSegs(a, b, i, c, q, d, x, e));
            && |rds| == 4 && rds[0] == Reading(a, "", "") && rds[1] == Reading(b, i, i)
  {
    BareRead(a);
    PlainPairRead(b, i);
  }

  /** The channel pair and the function-type pair of the mixed list. */
  lemma MixedReadsBack(a: string, b: string, i: string, c: string, q: string, d: string, x: string, e: string)
    requires Word(i) && Word(c) && Word(d) && 'u' !in d && Word(e)
    requires NoSpace(q) && ')' !in q && 'h' !in q && 'c' !in q && '\n' !in x
    ensures var rds := ReadAll(MixedSegs(a, b, i, c, q, d, x, e));
            && rds[2] == Reading(c, q + "chan_" + i, q + "chan " + i)
            && rds[3] == Reading(d, "func()_" + e, "func(" + x + ") " + e)
  {
    ChanPairRead(c, q, i);
    FuncPairRead(d, x, e);
  }

  /** The named-path loop on a bare name followed by three typed segments. */
  lemma BackfillMixed(a: string, b: string, t: string, r2: Reading, r3: Reading)
    requires t != "" && Typed(r2) && Typed(r3)
    ensures Backfill([Reading(a, "", ""), Reading(b, t, t), r2, r3], [])
              == [Param(Some(a), t), Param(Some(b), t), Param(Some(r2.name), r2.realType),
                  Param(Some(r3.name), r3.realType)]
  {
    var rds := [Reading(a, "", ""), Reading(b, t, t), r2, r3];
    assert rds[1..][1..] == rds[2..] == [r2, r3];
    BackfillTypedTwo(r2, r3);
    assert Backfill(rds[1..], [a])
           == [Param(Some(a), t), Param(Some(b), t)] + [Param(Some(r2.name), r2.realType), Param(Some(r3.name), r3.realType)] by {
      assert [a] + [b] == [a, b];
      assert Emit([a, b], t) == [Param(Some(a), t), Param(Some(b), t)];
    }
    assert Backfill(rds, []) == Backfill(rds[1..], [a]) by {
      assert [] + [a] == [a];
    }
  }

  /** Four readings known one by one form the list of the four. */
  lemma ReadingsOfFour(rds: seq<Reading>, r0: Reading, r1: Reading, r2: Reading, r3: Reading)
    requires |rds| == 4 && rds[0] == r0 && rds[1] == r1 && rds[2] == r2 && rds[3] == r3
    ensures rds == [r0, r1, r2, r3]
  {
  }

  /** `(A, B I, C PchanI, D func(X) E)`: `A` waits for `I`, the channel and
      function types are kept as written. */
  lemma MixedShape(a: string, b: string, i: string, c: string, q: string, d: string, x: string, e: string)
    requires Word(a) && Word(b) && Word(i) && Word(c) && Word(d) && 'u' !in d && Word(e)
    requires NoSpace(q) && '(' !in q && ')' !in q && ',' !in q && 'h' !in q && 'c' !in q
    requires '(' !in x && ')' !in x && '\n' !in x
    ensures ParseParams(ListText(MixedSegs(a, b, i, c, q, d, x, e)))
              == [Param(Some(a), i), Param(Some(b), i), Param(Some(c), q + "chan " + i),
                  Param(Some(d), "func(" + x + ") " + e)]
  {
    var segs := MixedSegs(a, b, i, c, q, d, x, e);
    MixedClean(a, b, i, c, q, d, x, e);
    ParseParamsOfList(segs);
    MixedNamed(a, b, i, c, q, d, x, e);
    MixedReads(a, b, i, c, q, d, x, e);
    var r2 := Reading(c, q + "chan_" + i, q + "chan " + i);
    var r3 := Reading(d, "func()_" + e, "func(" + x + ") " + e);
    var rds := [Reading(a, "", ""), Reading(b, i, i), r2, r3];
    ReadingsOfFour(ReadAll(segs), Reading(a, "", ""), Reading(b, i, i), r2, r3);
    NamedPath(segs, rds);
    BackfillMixed(a, b, i, r2, r3);
  }

  // ---------------------------------------------------------------------------
  // `parse_func`, the cases of the unit tests and the error cases.

  lemma FuncOneText(p: string, a: string, i: string, e: string)
    requires p == "func(a int) error" && a == "a" && i == "int" && e == "error"
    ensures p == "func" + ("(" + a + " " + i + ")") + " " + e
    ensures Word(a) && Word(i) && Word(e)
  {
  }

  lemma FuncOfOneParam(p: string)
    requires p == "func(a int) error"
    ensures ParseFunc(p) == Success(Func([Param(Some("a"), "int")], [Param(None, "error")]))
  {
    var a, i, e := "a", "int", "error";
    FuncOneText(p, a, i, e);
    FuncOneShape(a, i, e);
  }

  /** The text of the named-results test in the shape of
      `FuncNamedResultsShape`. */
  lemma NamedResultsText(p: string, a: string, i: string, n: string, m: string)
    requires p == "func(a int) (num int, den int)" && a == "a" && i == "int" && n == "num" && m == "den"
    ensures p == "func" + ("(" + a + " " + i + ")") + " " + ("(" + n + " " + i + ", " + m + " " + i + ")")
    ensures Word(a) && Word(i) && Word(n) && Word(m)
  {
    var l, r := "(" + a + " " + i + ")", "(" + n + " " + i + ", " + m + " " + i + ")";
    NamedResultsPieces(a, i, n, m, l, r);
    NamedResultsJoin(p, l, r);
  }

  // Equalities between long string literals are costly for the verifier, so
  // the texts of the `parse_func` tests are assembled in small steps, one
  // lemma per concatenation.

  /** The two lists of the named-results test, spelled out. */
  lemma NamedResultsPieces(a: string, i: string, n: string, m: string, l: string, r: string)
    requires a == "a" && i == "int" && n == "num" && m == "den"
    requires l == "(" + a + " " + i + ")" && r == "(" + n + " " + i + ", " + m + " " + i + ")"
    ensures l == "(a int)" && r == "(num int, den int)"
  {
  }

  /** The named-results test is `func`, its two lists and a space. */
  lemma NamedResultsJoin(p: string, l: string, r: string)
    requires p == "func(a int) (num int, den int)" && l == "(a int)" && r == "(num int, den int)"
    ensures p == "func" + l + " " + r
  {
    var g := "func" + l + " ";
    assert g == "func(a int) ";
  }

  lemma FuncOfNamedResults(p: string)
    requires p == "func(a int) (num int, den int)"
    ensures ParseFunc(p)
              == Success(Func([Param(Some("a"), "int")], [Param(Some("num"), "int"), Param(Some("den"), "int")]))
  {
    var a, i, n, m := "a", "int", "num", "den";
    NamedResultsText(p, a, i, n, m);
    FuncNamedResultsShape(a, i, n, m);
  }

  /** The words of the mixed test and its four segments. */
  lemma MixedWords(a: string, b: string, i: string, c: string, q: string, d: string, x: string, e: string)
    requires a == "a" && b == "b" && i == "int" && c == "c" && q == "" && d == "d" && x == "e error" && e == "error"
    ensures Word(a) && Word(b) && Word(i) && Word(c) && Word(d) && 'u' !in d && Word(e)
    ensures NoSpace(q) && '(' !in q && ')' !in q && ',' !in q && 'h' !in q && 'c' !in q
    ensures '(' !in x && ')' !in x && '\n' !in x
    ensures q + "chan " + i == "chan int" && "func(" + x + ") " + e == "func(e error) error"
  {
  }

  lemma MixedSegsText(a: string, b: string, i: string, c: string, q: string, d: string, x: string, e: string)
    requires a == "a" && b == "b" && i == "int" && c == "c" && q == "" && d == "d" && x == "e error" && e == "error"
    ensures MixedSegs(a, b, i, c, q, d, x, e) == ["a", "b int", "c chan int", "d func(e error) error"]
  {
    assert b + " " + i == "b int";
    assert c + " " + q + "chan " + i == "c chan int";
    assert d + " func(" + x + ") " + e == "d func(e error) error";
  }

  /** A parenthesised list of four segments as four pieces, each ending in
      its separator. */
  lemma ListFourPieces(s0: string, s1: string, s2: string, s3: string)
    ensures ListText([s0, s1, s2, s3]) == ("(" + s0 + ", ") + (s1 + ", ") + (s2 + ", ") + (s3 + ")")
  {
    ListFour(s0, s1, s2, s3);
  }

  /** The mixed parameter list as its four separator-ended pieces. */
  lemma MixedListPieces(l: string, c1: string, c2: string, c3: string, c4: string)
    requires c1 == "(a, " && c2 == "b int, " && c3 == "c chan int, " && c4 == "d func(e error) error)"
    requires l == "(a, b int, c chan int, d func(e error) error)"
    ensures l == c1 + c2 + c3 + c4
  {
    var s := c1 + c2;
    assert s == "(a, b int, ";
    MixedListTail(s, c3, c4, l);
  }

  /** The last two pieces of the mixed parameter list. */
  lemma MixedListTail(s: string, c3: string, c4: string, l: string)
    requires s == "(a, b int, " && c3 == "c chan int, " && c4 == "d func(e error) error)"
    requires l == "(a, b int, c chan int, d func(e error) error)"
    ensures l == s + c3 + c4
  {
    var t := s + c3;
    assert t == "(a, b int, c chan int, ";
  }

  /** The parameter list of the mixed test is the list of its four segments. */
  lemma MixedListText(l: string)
    requires l == "(a, b int, c chan int, d func(e error) error)"
    ensures l == ListText(["a", "b int", "c chan int", "d func(e error) error"])
  {
    var s0, s1, s2, s3 := "a", "b int", "c chan int", "d func(e error) error";
    ListFourPieces(s0, s1, s2, s3);
    var c1, c2, c3, c4 := "(" + s0 + ", ", s1 + ", ", s2 + ", ", s3 + ")";
    assert c1 == "(a, " && c2 == "b int, " && c3 == "c chan int, " && c4 == "d func(e error) error)";
    MixedListPieces(l, c1, c2, c3, c4);
  }

  /** Regrouping `func` and the four pieces. */
  lemma Regroup4(x: string, a: string, b: string, c: string, d: string)
    ensures x + (a + b + c + d) == x + a + b + (c + d)
  {
  }

  /** `func` and the first two pieces of the mixed list. */
  lemma MixedFuncHead(t: string, c1: string, c2: string)
    requires c1 == "(a, " && c2 == "b int, " && t == "func(a, b int, "
    ensures t == "func" + c1 + c2
  {
  }

  /** `func` and the whole mixed parameter list. */
  lemma MixedFuncBody(t: string, c34: string, u: string)
    requires t == "func(a, b int, " && c34 == "c chan int, d func(e error) error)"
    requires u == "func(a, b int, c chan int, d func(e error) error)"
    ensures u == t + c34
  {
  }

  /** The mixed test is the parameter part, a space and the result list. */
  lemma MixedFuncTail(u: string, r: string, p: string)
    requires u == "func(a, b int, c chan int, d func(e error) error)" && r == "(int, error)"
    requires p == "func(a, b int, c chan int, d func(e error) error) (int, error)"
    ensures p == u + " " + r
  {
    var v := u + " ";
    assert v == "func(a, b int, c chan int, d func(e error) error) ";
  }

  /** The text of the mixed test is `func`, its parameter list, a space and
      its result list. */
  lemma MixedFuncText(p: string, l: string, r: string)
    requires p == "func(a, b int, c chan int, d func(e error) error) (int, error)"
    requires l == "(a, b int, c chan int, d func(e error) error)" && r == "(int, error)"
    ensures p == "func" + l + " " + r
  {
    var c1, c2, c3, c4 := "(a, ", "b int, ", "c chan int, ", "d func(e error) error)";
    MixedListPieces(l, c1, c2, c3, c4);
    var c34 := c3 + c4;
    assert c34 == "c chan int, d func(e error) error)";
    var t, u := "func(a, b int, ", "func(a, b int, c chan int, d func(e error) error)";
    MixedFuncHead(t, c1, c2);
    MixedFuncBody(t, c34, u);
    MixedFuncTail(u, r, p);
    Regroup4("func", c1, c2, c3, c4);
  }

  /** The parameter list of the mixed test: its segments are clean and it
      reads as four named entries. */
  lemma MixedListFacts(l: string)
    requires l == "(a, b int, c chan int, d func(e error) error)"
    ensures var segs := ["a", "b int", "c chan int", "d func(e error) error"];
            && l == ListText(segs)
            && (forall k | 0 <= k < |segs| :: Clean(segs[k]))
            && ParseParams(l)
               == [Param(Some("a"), "int"), Param(Some("b"), "int"), Param(Some("c"), "chan int"),
                   Param(Some("d"), "func(e error) error")]
  {
    MixedListText(l);
    var a, b, i, c, q, d, x, e := "a", "b", "int", "c", "", "d", "e error", "error";
    MixedWords(a, b, i, c, q, d, x, e);
    MixedSegsText(a, b, i, c, q, d, x, e);
    MixedClean(a, b, i, c, q, d, x, e);
    MixedShape(a, b, i, c, q, d, x, e);
  }

  lemma TypesTrimmed(r: string)
    requires r == "(int, error)"
    ensures IsTrimmed(r)
  {
  }

  lemma FuncOfMixedParams(p: string)
    requires p == "func(a, b int, c chan int, d func(e error) error) (int, error)"
    ensures ParseFunc(p)
              == Success(Func([Param(Some("a"), "int"), Param(Some("b"), "int"), Param(Some("c"), "chan int"),
                               Param(Some("d"), "func(e error) error")],
                              [Param(None, "int"), Param(None, "error")]))
  {
    var l, r := "(a, b int, c chan int, d func(e error) error)", "(int, error)";
    MixedFuncText(p, l, r);
    MixedListFacts(l);
    ParamsOfTypes(r);
    TypesTrimmed(r);
    ParseFuncOfTexts(["a", "b int", "c chan int", "d func(e error) error"], l, r);
  }

  /** Text that does not open with `func(` is rejected. */
  lemma FuncRejectsOtherText(p: string)
    requires p == "nope(a int)"
    ensures ParseFunc(p) == Failure(InvalidFunctionSource("nope(a int)"))
  {
    assert p[..5] != "func(" by {
      assert p[..5][0] == 'n';
    }
  }

  /** A parameter list that is never closed is rejected. */
  lemma FuncRejectsUnclosed(p: string)
    requires p == "func(a int"
    ensures ParseFunc(p) == Failure(InvalidFunctionSource("func(a int"))
  {
    assert p[..5] == "func(";
    assert p[4..5] == "(";
    CloseScanPlain(p, 5, |p|, 1);
    assert CloseScan(p, 4, 0) == CloseScan(p, 5, 1);
  }

  /** With nothing after the parameter list, the results are one unnamed
      entry with an empty type. */
  lemma FuncWithoutResults(p: string)
    requires p == "func()"
    ensures ParseFunc(p) == Success(Func([Param(None, "")], [Param(None, "")]))
  {
    var l := "()";
    assert p == "func" + l + "";
    assert l == ListText([""]);
    assert Clean("");
    ParseFuncOfList([""], "");
    ParamsOfEmptyList(l);
    assert Trim("") == "";
    ParseParamsBare("");
  }
}
