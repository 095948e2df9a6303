/** The named-segment classifier `is_named`: a segment is certainly
    "name type" when, after normalisation, some whitespace character sits
    outside every parenthesis. */
module Classify {
  import opened Text
  import opened Normalize

  /** The scan of `is_named` from index `i` of the normalised text `t`, with
      `depth` the counter's value before `t[i]`. The counter starts at 0 and
      may go negative; whitespace is checked before the parenthesis update. */
  function NamedScan(t: string, i: nat, depth: int): bool
    requires i <= |t|
    decreases |t| - i
  {
    if i == |t| then false
    else if depth == 0 && IsSpace(t[i]) then true
    else if t[i] == '(' then NamedScan(t, i + 1, depth + 1)
    else if t[i] == ')' then NamedScan(t, i + 1, depth - 1)
    else NamedScan(t, i + 1, depth)
  }

  /** Whitespace at index `i` of `t`, outside every parenthesis. */
  predicate TopLevelSpace(t: string, i: int) {
    0 <= i < |t| && IsSpace(t[i]) && Depth(t[..i]) == 0
  }

  /** `is_named(part)`. */
  function IsNamed(part: string): bool {
    NamedScan(RemoveTypeSpaces(part), 0, 0)
  }

  /** The scan from `i`, started with the true depth of `t[..i]`, finds exactly
      the top-level whitespace at or after `i`. */
  lemma {:induction false} NamedScanFinds(t: string, i: nat)
    requires i <= |t|
    ensures NamedScan(t, i, Depth(t[..i])) <==> exists j :: i <= j && TopLevelSpace(t, j)
    decreases |t| - i
  {
    if i < |t| {
      var d := Depth(t[..i]);
      DepthStep(t, i);
      NamedScanFinds(t, i + 1);
      if d == 0 && IsSpace(t[i]) {
        assert TopLevelSpace(t, i);
      } else {
        assert NamedScan(t, i, d) == NamedScan(t, i + 1, d + Delta(t[i]));
        assert !TopLevelSpace(t, i);
        assert (exists j :: i <= j && TopLevelSpace(t, j))
           <==> (exists j :: i + 1 <= j && TopLevelSpace(t, j));
      }
    }
  }

  /** `is_named(part)` holds exactly when the normalised segment has a
      whitespace character at parenthesis depth 0. */
  lemma IsNamedIff(part: string)
    ensures IsNamed(part) <==> exists i :: TopLevelSpace(RemoveTypeSpaces(part), i)
  {
    var t := RemoveTypeSpaces(part);
    assert t[..0] == [];
    NamedScanFinds(t, 0);
  }

  /** A segment with no whitespace at all is never classified as named. */
  lemma NoSpaceNotNamed(part: string)
    requires NoSpace(part)
    ensures !IsNamed(part)
  {
    IsNamedIff(part);
    RemoveTypeSpacesFacts(part);
  }
}
