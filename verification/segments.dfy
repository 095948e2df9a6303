/** The segment splitter `parse_param_parts`: a parenthesised list is cut at
    every `,` or `)` read at parenthesis depth 1, and each piece is stripped. */
module Segments {
  import opened Text

  /** The loop of `parse_param_parts` from index `i`, where `depth` is the
      counter before `src[i]` and `last` is where the current piece began. A
      `,` or `)` seen at depth 1 closes the piece; the counter is then updated
      for every character, at any depth. */
  function PartsFrom(src: string, i: nat, depth: int, last: nat): seq<string>
    requires last <= i <= |src|
    decreases |src| - i
  {
    if i == |src| then []
    else
      var c := src[i];
      var next := depth + Delta(c);
      if (c == ',' || c == ')') && depth == 1 then
        [Trim(src[last..i])] + PartsFrom(src, i + 1, next, i + 1)
      else
        PartsFrom(src, i + 1, next, last)
  }

  /** `parse_param_parts(src)`. Text that does not open with `(` is its own
      single piece; otherwise the opening `(` puts the counter at 1 and the
      first piece starts right after it. Every piece comes back stripped. */
  function ParseParamParts(src: string): (parts: seq<string>)
    ensures !StartsWith(src, "(") ==> parts == [src]
    ensures StartsWith(src, "(") ==> forall k | 0 <= k < |parts| :: IsTrimmed(parts[k])
  {
    if !StartsWith(src, "(") then [src]
    else PartsFromTrimmed(src, 1, 1, 1); PartsFrom(src, 1, 1, 1)
  }

  lemma {:induction false} PartsFromTrimmed(src: string, i: nat, depth: int, last: nat)
    requires last <= i <= |src|
    ensures forall k | 0 <= k < |PartsFrom(src, i, depth, last)| :: IsTrimmed(PartsFrom(src, i, depth, last)[k])
    decreases |src| - i
  {
    if i < |src| {
      var next := depth + Delta(src[i]);
      PartsFromTrimmed(src, i + 1, next, i + 1);
      PartsFromTrimmed(src, i + 1, next, last);
    }
  }

  /** A cut: a `,` or `)` read at parenthesis depth 1 (the opening `(` of the
      list counts). */
  predicate IsCut(src: string, i: int) {
    1 <= i < |src| && (src[i] == ',' || src[i] == ')') && Depth(src[..i]) == 1
  }

  /** `cs` lists positions of `src` in strictly increasing order, all at or
      after `start`. */
  predicate Ascending(src: string, start: nat, cs: seq<nat>)
    decreases |cs|
  {
    |cs| == 0 || (start <= cs[0] < |src| && Ascending(src, cs[0] + 1, cs[1..]))
  }

  /** All cuts at or after `i`, in increasing order. */
  function Cuts(src: string, i: nat): (cs: seq<nat>)
    requires i <= |src|
    ensures Ascending(src, i, cs)
    decreases |src| - i
  {
    if i == |src| then []
    else if IsCut(src, i) then [i] + Cuts(src, i + 1)
    else Cuts(src, i + 1)
  }

  /** `Cuts(src, i)` holds every cut at or after `i`, and nothing else. */
  lemma {:induction false} CutsExactly(src: string, i: nat)
    requires i <= |src|
    ensures forall j :: j in Cuts(src, i) <==> i <= j && IsCut(src, j)
    decreases |src| - i
  {
    if i < |src| {
      CutsExactly(src, i + 1);
    }
  }

  /** Where the `k`-th piece begins: at `start` (just after the opening `(`)
      for the first piece, just after the previous cut for the others. */
  function PieceStart(start: nat, cs: seq<nat>, k: nat): nat
    requires k < |cs|
  {
    if k == 0 then start else cs[k - 1] + 1
  }

  /** The stripped stretches of `src` from `start` to the first cut and then
      between consecutive cuts. */
  function Pieces(src: string, start: nat, cs: seq<nat>): (ps: seq<string>)
    requires Ascending(src, start, cs)
    decreases |cs|
  {
    if |cs| == 0 then []
    else [Trim(src[start..cs[0]])] + Pieces(src, cs[0] + 1, cs[1..])
  }

  /** A cut at `i` closes the piece since `last` and is the first listed cut. */
  lemma CutStep(src: string, i: nat, last: nat)
    requires last <= i < |src| && IsCut(src, i)
    ensures PartsFrom(src, i, Depth(src[..i]), last)
              == [Trim(src[last..i])] + PartsFrom(src, i + 1, Depth(src[..i + 1]), i + 1)
    ensures Cuts(src, i) == [i] + Cuts(src, i + 1)
  {
    DepthStep(src, i);
  }

  /** Any other character leaves the piece open and is not listed. */
  lemma SkipStep(src: string, i: nat, last: nat)
    requires last <= i < |src| && !IsCut(src, i) && 1 <= i
    ensures PartsFrom(src, i, Depth(src[..i]), last)
              == PartsFrom(src, i + 1, Depth(src[..i + 1]), last)
    ensures Cuts(src, i) == Cuts(src, i + 1)
  {
    DepthStep(src, i);
  }

  /** Pieces from `last` when the first cut is at `i`. */
  lemma PiecesCons(src: string, last: nat, i: nat, cs: seq<nat>)
    requires last <= i < |src| && Ascending(src, i + 1, cs)
    ensures Ascending(src, last, [i] + cs)
    ensures Pieces(src, last, [i] + cs) == [Trim(src[last..i])] + Pieces(src, i + 1, cs)
  {
    assert ([i] + cs)[1..] == cs;
  }

  /** The loop, run from `i` with the true depth of `src[..i]`, returns the
      pieces delimited by the remaining cuts. */
  lemma {:induction false} PartsFromCuts(src: string, i: nat, last: nat)
    requires 1 <= last <= i <= |src|
    ensures Ascending(src, last, Cuts(src, i))
    ensures PartsFrom(src, i, Depth(src[..i]), last) == Pieces(src, last, Cuts(src, i))
    decreases |src| - i
  {
    if i < |src| {
      if IsCut(src, i) {
        PartsFromCuts(src, i + 1, i + 1);
        CutStep(src, i, last);
        PiecesCons(src, last, i, Cuts(src, i + 1));
      } else {
        PartsFromCuts(src, i + 1, last);
        SkipStep(src, i, last);
      }
    }
  }

  /** The `k`-th of the pieces runs from `PieceStart` to the `k`-th cut. */
  lemma {:induction false} PiecesAt(src: string, start: nat, cs: seq<nat>)
    requires Ascending(src, start, cs)
    ensures |Pieces(src, start, cs)| == |cs|
    ensures forall k {:trigger Pieces(src, start, cs)[k]} | 0 <= k < |cs| ::
              PieceStart(start, cs, k) <= cs[k] <= |src|
              && Pieces(src, start, cs)[k] == Trim(src[PieceStart(start, cs, k)..cs[k]])
    decreases |cs|
  {
    if |cs| > 0 {
      var rest := cs[1..];
      PiecesAt(src, cs[0] + 1, rest);
      var ps := Pieces(src, start, cs);
      var ps' := Pieces(src, cs[0] + 1, rest);
      assert ps == [Trim(src[start..cs[0]])] + ps';
      forall k | 0 <= k < |cs|
        ensures PieceStart(start, cs, k) <= cs[k] <= |src|
                && ps[k] == Trim(src[PieceStart(start, cs, k)..cs[k]])
      {
        if k > 0 {
          assert ps[k] == ps'[k - 1];
          assert cs[k] == rest[k - 1];
          assert PieceStart(start, cs, k) == PieceStart(cs[0] + 1, rest, k - 1);
        }
      }
    }
  }

  /** The pieces of a parenthesised list are exactly the stripped stretches
      between the opening `(` and the cuts: one piece per `,` or `)` read at
      depth 1, so commas nested inside inner parentheses never split a piece. */
  lemma PartsAreCutPieces(src: string)
    requires StartsWith(src, "(")
    ensures var ps := ParseParamParts(src);
            var cs := Cuts(src, 1);
            && (forall j :: j in cs <==> IsCut(src, j))
            && |ps| == |cs|
            && forall k | 0 <= k < |ps| ::
                 PieceStart(1, cs, k) <= cs[k] <= |src|
                 && ps[k] == Trim(src[PieceStart(1, cs, k)..cs[k]])
  {
    CutsExactly(src, 1);
    assert src[..1][..0] == [];
    assert Depth(src[..1]) == 1;
    PartsFromCuts(src, 1, 1);
    var cs := Cuts(src, 1);
    var ps := ParseParamParts(src);
    assert ps == Pieces(src, 1, cs);
    PiecesAt(src, 1, cs);
    forall k | 0 <= k < |ps|
      ensures PieceStart(1, cs, k) <= cs[k] <= |src|
              && ps[k] == Trim(src[PieceStart(1, cs, k)..cs[k]])
    {
      assert ps[k] == Pieces(src, 1, cs)[k];
    }
  }

  // ---------------------------------------------------------------------------
  // Splitting undoes joining.

  /** The scan of a segment from index `i` at relative depth `d`: the depth
      never drops below 0, every `,` and `)` sits inside a parenthesis the
      segment itself opened, and the segment ends back at depth 0. */
  predicate BalancedFrom(seg: string, i: nat, d: int)
    requires i <= |seg|
    decreases |seg| - i
  {
    if i == |seg| then d == 0
    else
      ((seg[i] == ',' || seg[i] == ')') ==> d > 0)
      && BalancedFrom(seg, i + 1, d + Delta(seg[i]))
  }

  /** A segment that can stand between the separators of a list: stripped,
      and balanced so that none of its own characters ends it. */
  predicate Clean(seg: string) {
    IsTrimmed(seg) && BalancedFrom(seg, 0, 0)
  }

  /** The segments written out with `", "` between them. */
  function Join(segs: seq<string>): string
    requires |segs| > 0
    decreases |segs|
  {
    if |segs| == 1 then segs[0] else segs[0] + ", " + Join(segs[1..])
  }

  /** A parenthesised list of the segments. */
  function ListText(segs: seq<string>): (t: string)
    requires |segs| > 0
    ensures StartsWith(t, "(")
  {
    "(" + Join(segs) + ")"
  }

  /** Reading a balanced segment from depth 1 produces no cut and comes back
      to depth 1. */
  lemma {:induction false} PartsFromSeg(src: string, i: nat, seg: string, k: nat, d: int, last: nat)
    requires last <= i && i + |seg| <= |src| && src[i..i + |seg|] == seg
    requires k <= |seg| && BalancedFrom(seg, k, d)
    ensures PartsFrom(src, i + k, 1 + d, last) == PartsFrom(src, i + |seg|, 1, last)
    decreases |seg| - k
  {
    if k < |seg| {
      assert src[i + k] == seg[k];
      PartsFromSeg(src, i, seg, k + 1, d + Delta(seg[k]), last);
    }
  }

  /** A piece made of a stripped segment, possibly after one space, strips
      to the segment. */
  lemma PieceTrim(src: string, last: nat, i: nat, seg: string)
    requires i + |seg| <= |src| && src[i..i + |seg|] == seg && IsTrimmed(seg)
    requires last == i || (last + 1 == i && src[last] == ' ')
    ensures Trim(src[last..i + |seg|]) == seg
  {
    if last == i {
      TrimKeepsTrimmed(seg);
    } else {
      assert src[last..i + |seg|] == [' '] + seg;
      TrimSpacePrefix(seg);
    }
  }

  /** The text after a segment is either the final `)` or `", "` and the
      rest of the list. */
  lemma JoinSplit(src: string, i: nat, segs: seq<string>)
    requires |segs| > 0 && i <= |src| && src[i..] == Join(segs) + ")"
    ensures i + |segs[0]| < |src| && src[i..i + |segs[0]|] == segs[0]
    ensures |segs| == 1 ==> src[i + |segs[0]|] == ')' && i + |segs[0]| + 1 == |src|
    ensures |segs| > 1 ==> && i + |segs[0]| + 2 <= |src|
                           && src[i + |segs[0]|] == ',' && src[i + |segs[0]| + 1] == ' '
                           && src[i + |segs[0]| + 2..] == Join(segs[1..]) + ")"
  {
    var seg := segs[0];
    if |segs| == 1 {
      assert src[i..] == seg + ")";
      assert src[i..][..|seg|] == seg;
    } else {
      assert src[i..] == seg + (", " + (Join(segs[1..]) + ")"));
      assert src[i..][..|seg|] == seg;
      assert src[i..][|seg| + 2..] == Join(segs[1..]) + ")";
    }
  }

  /** From the start of a run of clean segments joined by `", "` and closed by
      the final `)`, the loop returns exactly those segments. `last` is where
      the current piece began: at the segment or at the space before it. */
  lemma {:induction false} PartsFromJoin(src: string, i: nat, last: nat, segs: seq<string>)
    requires |segs| > 0 && forall k | 0 <= k < |segs| :: Clean(segs[k])
    requires i <= |src| && src[i..] == Join(segs) + ")"
    requires last == i || (last + 1 == i && src[last] == ' ')
    ensures PartsFrom(src, i, 1, last) == segs
    decreases |segs|
  {
    var seg := segs[0];
    var j := i + |seg|;
    JoinSplit(src, i, segs);
    PartsFromSeg(src, i, seg, 0, 0, last);
    PieceTrim(src, last, i, seg);
    assert PartsFrom(src, i, 1, last) == [seg] + PartsFrom(src, j + 1, 1 + Delta(src[j]), j + 1);
    if |segs| > 1 {
      var rest := segs[1..];
      forall k | 0 <= k < |rest| ensures Clean(rest[k]) {
        assert rest[k] == segs[k + 1];
      }
      PartsFromJoin(src, j + 2, j + 1, rest);
      assert PartsFrom(src, j + 1, 1, j + 1) == PartsFrom(src, j + 2, 1, j + 1);
      assert segs == [seg] + rest;
    }
  }

  /** `parse_param_parts` recovers the segments of a list written with
      `", "` between clean segments. */
  lemma PartsOfList(segs: seq<string>)
    requires |segs| > 0 && forall k | 0 <= k < |segs| :: Clean(segs[k])
    ensures ParseParamParts(ListText(segs)) == segs
  {
    var src := ListText(segs);
    assert src[1..] == Join(segs) + ")";
    PartsFromJoin(src, 1, 1, segs);
  }
}
