/** The parameter-list builder `parse_params`: a list text becomes ordered
    `(name, type)` pairs, either all unnamed ("just types") or all named, with
    bare names waiting for the type of the next segment that has one. */
module Params {
  import opened Text
  import opened Outcomes
  import opened Normalize
  import opened Classify
  import opened Segments

  /** One parameter or result: Python's `(name, type)` tuple, with `None`
      for an unnamed entry. */
  datatype Param = Param(name: Option<string>, typ: string)

  /** Some segment of the list is certainly "name type" (the `just_types`
      flag of `parse_params` is cleared). */
  predicate AnyNamed(parts: seq<string>) {
    exists k | 0 <= k < |parts| :: IsNamed(parts[k])
  }

  /** What the named path reads from one segment: `partition(" ")` of the
      stripped, normalised text gives the name and, after the first space,
      `tipe`; the type it emits is the ORIGINAL stripped segment after its
      first space, so the type's own spacing is kept. */
  datatype Reading = Reading(name: string, tipe: string, realType: string)

  function Read(part: string): Reading {
    var (name, tipe) := Partition(Trim(RemoveTypeSpaces(part)), ' ');
    Reading(name, tipe, Partition(Trim(part), ' ').1)
  }

  /** The segment carries a type: something follows the first space of its
      normalised text. */
  predicate Typed(rd: Reading) {
    rd.tipe != ""
  }

  /** The readings of all segments, in order. */
  function ReadAll(parts: seq<string>): (rds: seq<Reading>)
    ensures |rds| == |parts|
    ensures forall k | 0 <= k < |parts| :: rds[k] == Read(parts[k])
    decreases |parts|
  {
    if |parts| == 0 then [] else [Read(parts[0])] + ReadAll(parts[1..])
  }

  /** The "just types" path: one unnamed entry per segment, in order. */
  function JustTypes(parts: seq<string>): (r: seq<Param>)
    ensures |r| == |parts|
    ensures forall k | 0 <= k < |parts| :: r[k] == Param(None, parts[k])
    decreases |parts|
  {
    if |parts| == 0 then [] else [Param(None, parts[0])] + JustTypes(parts[1..])
  }

  /** A group of names, all given the same type, in order. */
  function Emit(names: seq<string>, typ: string): (r: seq<Param>)
    ensures |r| == |names|
    ensures forall k | 0 <= k < |names| :: r[k] == Param(Some(names[k]), typ)
    decreases |names|
  {
    if |names| == 0 then [] else [Param(Some(names[0]), typ)] + Emit(names[1..], typ)
  }

  /** The loop of the named path over the segments' readings, with `pending`
      the bare names seen since the last typed segment. Each segment's name
      joins the group; a typed segment emits the whole group with its type and
      empties it. Names still pending at the end are dropped. */
  function Backfill(rds: seq<Reading>, pending: seq<string>): seq<Param>
    decreases |rds|
  {
    if |rds| == 0 then []
    else
      var group := pending + [rds[0].name];
      if Typed(rds[0]) then Emit(group, rds[0].realType) + Backfill(rds[1..], [])
      else Backfill(rds[1..], group)
  }

  /** `parse_params(src)`. */
  function ParseParams(src: string): seq<Param> {
    if !StartsWith(src, "(") then [Param(None, src)]
    else ParseList(ParseParamParts(src))
  }

  /** The body of `parse_params` once the list is split into segments: the
      "just types" path unless some segment is certainly named. */
  function ParseList(parts: seq<string>): seq<Param> {
    if !AnyNamed(parts) then JustTypes(parts) else Backfill(ReadAll(parts), [])
  }

  // ---------------------------------------------------------------------------
  // An independent description of the named path.

  /** One past the last typed segment (0 when no segment is typed): the
      segments that receive a type. */
  function Covered(rds: seq<Reading>): (n: nat)
    ensures n <= |rds|
    ensures n > 0 ==> Typed(rds[n - 1])
    ensures forall k | n <= k < |rds| :: !Typed(rds[k])
    decreases |rds|
  {
    if |rds| == 0 then 0
    else if Covered(rds[1..]) > 0 then Covered(rds[1..]) + 1
    else if Typed(rds[0]) then 1
    else 0
  }

  /** The first typed segment at or after `k`: the one whose type segment `k`
      receives. */
  function NextTyped(rds: seq<Reading>, k: nat): (j: nat)
    requires k < Covered(rds)
    ensures k <= j < Covered(rds)
    ensures Typed(rds[j])
    ensures forall i | k <= i < j :: !Typed(rds[i])
    decreases |rds| - k
  {
    if Typed(rds[k]) then k else NextTyped(rds, k + 1)
  }

  lemma NextTypedCons(rds: seq<Reading>, k: nat)
    requires |rds| > 0 && k < Covered(rds[1..])
    ensures k + 1 < Covered(rds)
    ensures NextTyped(rds, k + 1) == NextTyped(rds[1..], k) + 1
  {
    var a := NextTyped(rds, k + 1);
    var b := NextTyped(rds[1..], k);
    assert rds[1..][b] == rds[b + 1];
    assert a <= b + 1;
  }

  /** The entries the named path should produce: for each segment up to the
      last typed one, in order, its own name with the type of the next typed
      segment (`AssignedAt` states this entry by entry). */
  function Assigned(rds: seq<Reading>): (r: seq<Param>)
    ensures |r| == Covered(rds)
    decreases |rds|
  {
    if Covered(rds) == 0 then []
    else [Param(Some(rds[0].name), rds[NextTyped(rds, 0)].realType)] + Assigned(rds[1..])
  }

  /** Entry `k` of `Assigned`: segment `k`'s name with the type of the next
      typed segment. */
  lemma {:induction false} AssignedAt(rds: seq<Reading>, k: nat)
    requires k < Covered(rds)
    ensures Assigned(rds)[k] == Param(Some(rds[k].name), rds[NextTyped(rds, k)].realType)
    decreases |rds|
  {
    var rest := rds[1..];
    var head := [Param(Some(rds[0].name), rds[NextTyped(rds, 0)].realType)];
    assert Assigned(rds) == head + Assigned(rest);
    if k > 0 {
      assert Assigned(rds)[k] == Assigned(rest)[k - 1];
      NextTypedCons(rds, k - 1);
      AssignedAt(rest, k - 1);
      AssignedEntryShift(rds, k);
    }
  }

  /** Segment `k` and its next typed segment, seen from the rest. */
  lemma AssignedEntryShift(rds: seq<Reading>, k: nat)
    requires |rds| > 0 && 0 < k && k - 1 < Covered(rds[1..])
    ensures k < Covered(rds)
    ensures Param(Some(rds[1..][k - 1].name), rds[1..][NextTyped(rds[1..], k - 1)].realType)
            == Param(Some(rds[k].name), rds[NextTyped(rds, k)].realType)
  {
    NextTypedCons(rds, k - 1);
  }

  /** `Assigned` seen from the first segment: its entry, then the entries of
      the rest. */
  lemma AssignedCons(rds: seq<Reading>)
    requires Covered(rds) > 0
    ensures var rest := rds[1..];
            Assigned(rds)
              == [Param(Some(rds[0].name), rds[NextTyped(rds, 0)].realType)]
                 + (if Covered(rest) == 0 then [] else Assigned(rest))
  {
  }

  lemma EmitSnoc(names: seq<string>, name: string, typ: string)
    ensures Emit(names + [name], typ) == Emit(names, typ) + [Param(Some(name), typ)]
  {
    var a := Emit(names + [name], typ);
    var b := Emit(names, typ) + [Param(Some(name), typ)];
    assert |a| == |b|;
    forall k | 0 <= k < |a|
      ensures a[k] == b[k]
    {
      assert (names + [name])[k] == if k < |names| then names[k] else name;
    }
  }

  /** Regrouping three concatenated lists; stated on its own so that the
      backfill steps can use it without the solver searching for it. */
  lemma AppendAssoc(a: seq<Param>, b: seq<Param>, c: seq<Param>)
    ensures (a + b) + c == a + (b + c)
  {
  }

  /** What `Backfill` should return: the pending names with the type of the
      first typed segment, then `Assigned`; nothing when no segment is typed. */
  function BackfillTarget(rds: seq<Reading>, pending: seq<string>): seq<Param> {
    if Covered(rds) == 0 then []
    else Emit(pending, rds[NextTyped(rds, 0)].realType) + Assigned(rds)
  }

  /** The step of `BackfillSpec` at a typed segment. */
  lemma BackfillTypedStep(rds: seq<Reading>, pending: seq<string>)
    requires |rds| > 0 && Typed(rds[0])
    requires Backfill(rds[1..], []) == BackfillTarget(rds[1..], [])
    ensures Backfill(rds, pending) == BackfillTarget(rds, pending)
  {
    var rest := rds[1..];
    var n0, t0 := rds[0].name, rds[0].realType;
    var tail := if Covered(rest) == 0 then [] else Assigned(rest);
    assert Backfill(rest, []) == tail by {
      if Covered(rest) > 0 {
        assert Emit([], rest[NextTyped(rest, 0)].realType) == [];
      }
    }
    AssignedCons(rds);
    assert NextTyped(rds, 0) == 0;
    EmitSnoc(pending, n0, t0);
    AppendAssoc(Emit(pending, t0), [Param(Some(n0), t0)], tail);
  }

  /** The step of `BackfillSpec` at a segment without a type. */
  lemma BackfillUntypedStep(rds: seq<Reading>, pending: seq<string>)
    requires |rds| > 0 && !Typed(rds[0])
    requires Backfill(rds[1..], pending + [rds[0].name])
             == BackfillTarget(rds[1..], pending + [rds[0].name])
    ensures Backfill(rds, pending) == BackfillTarget(rds, pending)
  {
    var rest := rds[1..];
    var n0 := rds[0].name;
    if Covered(rds) > 0 {
      assert Covered(rest) > 0;
      AssignedCons(rds);
      NextTypedCons(rds, 0);
      assert NextTyped(rds, 0) >= 1;
      var t := rds[NextTyped(rds, 0)].realType;
      assert t == rest[NextTyped(rest, 0)].realType;
      EmitSnoc(pending, n0, t);
      AppendAssoc(Emit(pending, t), [Param(Some(n0), t)], Assigned(rest));
    }
  }

  /** The named-path loop emits the pending names, all with the type of the
      first typed segment, followed by exactly the entries of `Assigned`; with
      no typed segment left it emits nothing. */
  lemma {:induction false} BackfillSpec(rds: seq<Reading>, pending: seq<string>)
    ensures Backfill(rds, pending)
              == if Covered(rds) == 0 then []
                 else Emit(pending, rds[NextTyped(rds, 0)].realType) + Assigned(rds)
    decreases |rds|
  {
    if |rds| > 0 {
      if Typed(rds[0]) {
        BackfillSpec(rds[1..], []);
        BackfillTypedStep(rds, pending);
      } else {
        BackfillSpec(rds[1..], pending + [rds[0].name]);
        BackfillUntypedStep(rds, pending);
      }
    }
  }

  /** Started with no pending names, the loop returns exactly `Assigned`. */
  lemma BackfillFromStart(rds: seq<Reading>)
    ensures Backfill(rds, []) == Assigned(rds)
  {
    BackfillSpec(rds, []);
    if Covered(rds) > 0 {
      var e := Emit([], rds[NextTyped(rds, 0)].realType);
      assert e == [];
      assert e + Assigned(rds) == Assigned(rds);
    }
  }

  // ---------------------------------------------------------------------------
  // What `parse_params` returns.

  /** Text that does not open with `(` is one unnamed entry, unchanged. */
  lemma ParseParamsBare(src: string)
    requires !StartsWith(src, "(")
    ensures ParseParams(src) == [Param(None, src)]
  {
  }

  /** When no segment is certainly named, every segment is an unnamed type:
      same number, same order as the segments. */
  lemma ParseParamsJustTypes(src: string)
    requires StartsWith(src, "(") && !AnyNamed(ParseParamParts(src))
    ensures var parts := ParseParamParts(src);
            var r := ParseParams(src);
            && |r| == |parts|
            && forall k | 0 <= k < |r| :: r[k] == Param(None, parts[k])
  {
  }

  /** A list with a certainly named segment is read by the named-path loop. */
  lemma NamedPath(parts: seq<string>, rds: seq<Reading>)
    requires AnyNamed(parts) && ReadAll(parts) == rds
    ensures ParseList(parts) == Backfill(rds, [])
  {
  }

  /** When some segment is certainly named, the result is `Assigned`: every
      segment up to the last typed one yields one named entry, in order, its
      name read from the normalised text and its type the original text of the
      next typed segment. Bare names after the last typed segment are dropped. */
  lemma ParseListNamed(parts: seq<string>)
    requires AnyNamed(parts)
    ensures var rds := ReadAll(parts);
            && ParseList(parts) == Assigned(rds)
            && |ParseList(parts)| == Covered(rds) <= |parts|
  {
    var rds := ReadAll(parts);
    NamedPath(parts, rds);
    BackfillFromStart(rds);
  }

  /** The same for `parse_params`, entry by entry. */
  lemma ParseParamsNamed(src: string)
    requires StartsWith(src, "(") && AnyNamed(ParseParamParts(src))
    ensures var parts := ParseParamParts(src);
            var rds := ReadAll(parts);
            var r := ParseParams(src);
            && r == Assigned(rds)
            && |r| == Covered(rds) <= |parts|
            && forall k | 0 <= k < |r| ::
                 r[k] == Param(Some(rds[k].name), rds[NextTyped(rds, k)].realType)
  {
    var parts := ParseParamParts(src);
    var rds := ReadAll(parts);
    ParseListNamed(parts);
    forall k | 0 <= k < Covered(rds)
      ensures Assigned(rds)[k] == Param(Some(rds[k].name), rds[NextTyped(rds, k)].realType)
    {
      AssignedAt(rds, k);
    }
  }

  /** Within one list, either every entry has a name or none has. */
  lemma NamesAllOrNone(src: string)
    ensures var r := ParseParams(src);
            || (forall k | 0 <= k < |r| :: r[k].name.None?)
            || (forall k | 0 <= k < |r| :: r[k].name.Some?)
  {
    if StartsWith(src, "(") && AnyNamed(ParseParamParts(src)) {
      ParseParamsNamed(src);
    }
  }

  /** Names that share one type form a consecutive run ending at a typed
      segment, whose own entry carries that same type. */
  lemma AssignedGroup(rds: seq<Reading>, k: nat)
    requires k < Covered(rds)
    ensures var j := NextTyped(rds, k);
            && k <= j < |Assigned(rds)|
            && Assigned(rds)[j].typ == Assigned(rds)[k].typ == rds[j].realType
            && forall i | k <= i < j :: !Typed(rds[i])
  {
    var j := NextTyped(rds, k);
    AssignedAt(rds, k);
    AssignedAt(rds, j);
    assert NextTyped(rds, j) == j;
  }

  /** The same, for the entries `parse_params` returns. */
  lemma GroupEndsAtTypedSegment(src: string, k: nat)
    requires StartsWith(src, "(") && AnyNamed(ParseParamParts(src))
    requires k < |ParseParams(src)|
    ensures var rds := ReadAll(ParseParamParts(src));
            var r := ParseParams(src);
            && |r| == Covered(rds)
            && var j := NextTyped(rds, k);
               k <= j < |r|
               && r[j].typ == r[k].typ == rds[j].realType
  {
    var parts := ParseParamParts(src);
    ParseListNamed(parts);
    AssignedGroup(ReadAll(parts), k);
  }

  /** A list written from clean segments is read segment by segment. */
  lemma ParseParamsOfList(segs: seq<string>)
    requires |segs| > 0 && forall k | 0 <= k < |segs| :: Clean(segs[k])
    ensures ParseParams(ListText(segs)) == ParseList(segs)
  {
    PartsOfList(segs);
  }

  /** When every segment is typed, each entry carries its own segment's name
      and type. */
  lemma AllTypedAssigned(rds: seq<Reading>)
    requires forall k | 0 <= k < |rds| :: Typed(rds[k])
    ensures Covered(rds) == |rds|
    ensures forall k | 0 <= k < |rds| :: Assigned(rds)[k] == Param(Some(rds[k].name), rds[k].realType)
  {
    if |rds| > 0 {
      assert Typed(rds[|rds| - 1]);
    }
    forall k | 0 <= k < |rds|
      ensures Assigned(rds)[k] == Param(Some(rds[k].name), rds[k].realType)
    {
      AssignedAt(rds, k);
      assert NextTyped(rds, k) == k;
    }
  }

  /** When every segment is typed, the named-path loop gives each segment
      its own name and type, in order. */
  lemma BackfillAllTyped(rds: seq<Reading>)
    requires forall k | 0 <= k < |rds| :: Typed(rds[k])
    ensures |Backfill(rds, [])| == |rds|
    ensures forall k | 0 <= k < |rds| :: Backfill(rds, [])[k] == Param(Some(rds[k].name), rds[k].realType)
  {
    BackfillFromStart(rds);
    AllTypedAssigned(rds);
  }
}
