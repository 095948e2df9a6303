/** The signature parser `parse_func`: a Go function type `func(...) ...` is
    split at the parenthesis that closes its parameter list into a parameter
    list and a result list, each read by `parse_params`. */
module Signature {
  import opened Text
  import opened Outcomes
  import opened Segments
  import opened Params

  /** `gocode.Error`: the one error the parser raises, carrying the rejected
      source text. */
  datatype Error = InvalidFunctionSource(src: string)

  /** The text the error is raised with. */
  function Message(e: Error): (m: string)
    ensures StartsWith(m, "invalid function source: ")
    ensures m[|"invalid function source: "|..] == e.src
  {
    "invalid function source: " + e.src
  }

  /** The value `parse_func` returns: the parameters and the results. */
  datatype Func = Func(params: seq<Param>, results: seq<Param>)

  /** Index `i` of `src` brings the parenthesis depth counted from index 4
      (the `(` of `func(`) back to 0. */
  predicate Closes(src: string, i: int) {
    4 <= i < |src| && Depth(src[4..i + 1]) == 0
  }

  /** `i` is the parenthesis that closes the parameter list: the first index
      at which the depth counted from the `(` of `func(` returns to 0. */
  predicate FirstClose(src: string, i: int) {
    Closes(src, i) && forall j | 4 <= j < i :: !Closes(src, j)
  }

  /** The loop of `parse_func` from index `i`, `depth` being the counter
      before `src[i]`: the first index at or after `i` where the counter,
      after the update for that character, is 0. */
  function CloseScan(src: string, i: nat, depth: int): Option<nat>
    requires 4 <= i <= |src|
    decreases |src| - i
  {
    if i == |src| then None
    else
      var next := depth + Delta(src[i]);
      if next == 0 then Some(i) else CloseScan(src, i + 1, next)
  }

  /** Started with the true depth of `src[4..i]`, the loop finds the first
      index at or after `i` that closes the parameter list, or reports that
      there is none. */
  lemma {:induction false} CloseScanFinds(src: string, i: nat)
    requires 4 <= i <= |src|
    ensures var r := CloseScan(src, i, Depth(src[4..i]));
            && (r.Some? ==> i <= r.value && Closes(src, r.value)
                            && forall j | i <= j < r.value :: !Closes(src, j))
            && (r.None? ==> forall j | i <= j < |src| :: !Closes(src, j))
    decreases |src| - i
  {
    if i < |src| {
      DepthSliceStep(src, 4, i);
      CloseScanFinds(src, i + 1);
    }
  }

  /** A stretch with no parenthesis leaves a non-zero counter unchanged. */
  lemma {:induction false} CloseScanPlain(src: string, i: nat, j: nat, depth: int)
    requires 4 <= i <= j <= |src| && depth != 0
    requires forall m | i <= m < j :: src[m] != '(' && src[m] != ')'
    ensures CloseScan(src, i, depth) == CloseScan(src, j, depth)
    decreases j - i
  {
    if i < j {
      CloseScanPlain(src, i + 1, j, depth);
    }
  }

  /** `parse_func(src)`: text that does not open with `func(` and text whose
      parameter list is never closed are rejected with
      `InvalidFunctionSource(src)`. Otherwise the parameter list, from the `(`
      to its closing `)`, and the stripped remainder are both read with
      `parse_params`. */
  function ParseFunc(src: string): (r: Result<Func, Error>)
    ensures r.Failure? <==>
              !StartsWith(src, "func(") || forall i | 4 <= i < |src| :: !Closes(src, i)
    ensures r.Failure? ==> r.error == InvalidFunctionSource(src)
    ensures r.Success? ==>
              exists i | FirstClose(src, i) ::
                r.value == Func(ParseParams(src[4..i + 1]), ParseParams(Trim(src[i + 1..])))
  {
    if !StartsWith(src, "func(") then Failure(InvalidFunctionSource(src))
    else
      assert src[4..4] == [];
      CloseScanFinds(src, 4);
      match CloseScan(src, 4, 0)
      case None => Failure(InvalidFunctionSource(src))
      case Some(i) =>
        assert FirstClose(src, i);
        Success(Func(ParseParams(src[4..i + 1]), ParseParams(Trim(src[i + 1..]))))
  }

  // ---------------------------------------------------------------------------
  // The closing parenthesis.

  /** There is at most one closing parenthesis. */
  lemma FirstCloseUnique(src: string, i: int, j: int)
    requires FirstClose(src, i) && FirstClose(src, j)
    ensures i == j
  {
  }

  /** Before the closing parenthesis the depth stays positive: the counter
      starts at 1 on the `(` of `func(` and moves by at most 1 per character,
      so it cannot skip over 0. */
  lemma {:induction false} DepthPositiveBefore(src: string, i: nat, j: nat)
    requires StartsWith(src, "func(") && FirstClose(src, i)
    requires 4 <= j < i
    ensures Depth(src[4..j + 1]) > 0
    decreases j
  {
    if j == 4 {
      assert src[4..5] == "(";
    } else {
      DepthPositiveBefore(src, i, j - 1);
      DepthSliceStep(src, 4, j);
      assert !Closes(src, j);
    }
  }

  /** The parameter text handed to `parse_params` opens with `(`, closes with
      `)`, is balanced, and that final `)` is read at depth 1 — so it is a cut
      and the parameter list always has at least one segment (the empty one
      for `func()`). */
  lemma ParamTextShape(src: string, i: nat)
    requires StartsWith(src, "func(") && FirstClose(src, i)
    ensures var p := src[4..i + 1];
            && 2 <= |p| && p[0] == '(' && p[|p| - 1] == ')'
            && Depth(p) == 0
            && IsCut(p, |p| - 1)
            && |ParseParamParts(p)| >= 1
  {
    var p := src[4..i + 1];
    assert src[4..5] == "(";
    assert Depth(src[4..5]) == 1;
    DepthPositiveBefore(src, i, i - 1);
    DepthSliceStep(src, 4, i);
    assert p[..|p| - 1] == src[4..i];
    assert Delta(src[i]) == -1;
    assert p[|p| - 1] == ')';
    assert IsCut(p, |p| - 1);
    assert StartsWith(p, "(");
    PartsAreCutPieces(p);
    CutsExactly(p, 1);
    assert |p| - 1 in Cuts(p, 1);
  }

  /** When the source is accepted, the parameters come from a parenthesised
      list, so they are read segment by segment rather than as one bare type. */
  lemma ParseFuncParams(src: string)
    requires ParseFunc(src).Success?
    ensures exists i | FirstClose(src, i) ::
              var p := src[4..i + 1];
              && StartsWith(p, "(")
              && ParseFunc(src).value.params == ParseList(ParseParamParts(p))
  {
    var i :| FirstClose(src, i)
             && ParseFunc(src).value
                == Func(ParseParams(src[4..i + 1]), ParseParams(Trim(src[i + 1..])));
    ParamTextShape(src, i);
    assert StartsWith(src[4..i + 1], "(");
  }

  // ---------------------------------------------------------------------------
  // A function type written from a list of clean segments.

  /** A balanced segment read from depth 1 never brings the counter to 0. */
  lemma {:induction false} CloseScanSeg(src: string, i: nat, seg: string, k: nat, d: int)
    requires 4 <= i && i + |seg| <= |src| && src[i..i + |seg|] == seg
    requires k <= |seg| && BalancedFrom(seg, k, d) && d >= 0
    ensures CloseScan(src, i + k, 1 + d) == CloseScan(src, i + |seg|, 1)
    decreases |seg| - k
  {
    if k < |seg| {
      assert src[i + k] == seg[k];
      CloseScanSeg(src, i, seg, k + 1, d + Delta(seg[k]));
    }
  }

  /** From the first segment of a joined list the counter first returns to 0
      at the list's final `)`. */
  lemma {:induction false} CloseScanJoin(src: string, i: nat, segs: seq<string>)
    requires |segs| > 0 && forall k | 0 <= k < |segs| :: Clean(segs[k])
    requires 4 <= i && i + |Join(segs)| < |src|
    requires src[i..i + |Join(segs)| + 1] == Join(segs) + ")"
    ensures CloseScan(src, i, 1) == Some(i + |Join(segs)|)
    decreases |segs|
  {
    var seg := segs[0];
    var j := i + |seg|;
    var n := |Join(segs)|;
    var t := src[..i + n + 1];
    assert t[i..] == Join(segs) + ")";
    JoinSplit(t, i, segs);
    assert src[i..j] == t[i..j];
    CloseScanSeg(src, i, seg, 0, 0);
    if |segs| > 1 {
      var rest := segs[1..];
      forall k | 0 <= k < |rest| ensures Clean(rest[k]) {
        assert rest[k] == segs[k + 1];
      }
      assert n == |seg| + 2 + |Join(rest)|;
      assert src[j + 2..j + 2 + |Join(rest)| + 1] == t[j + 2..];
      CloseScanJoin(src, j + 2, rest);
    }
  }

  /** `func`, a list of clean segments and any remainder: the parameters are
      the list and the results are the stripped remainder. */
  lemma ParseFuncOfList(segs: seq<string>, rest: string)
    requires |segs| > 0 && forall k | 0 <= k < |segs| :: Clean(segs[k])
    ensures var p := ListText(segs);
            ParseFunc("func" + p + rest)
              == Success(Func(ParseParams(p), ParseParams(Trim(rest))))
  {
    var p := ListText(segs);
    var src := "func" + p + rest;
    var n := |Join(segs)|;
    assert src[..5] == "func(";
    assert src[4..4] == [];
    assert src[5..5 + n + 1] == Join(segs) + ")";
    CloseScanJoin(src, 5, segs);
    assert CloseScan(src, 4, 0) == CloseScan(src, 5, 1);
    assert src[4..5 + n + 1] == p;
    assert src[5 + n + 1..] == rest;
  }
}
