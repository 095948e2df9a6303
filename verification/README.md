# Go signature parser of `gocode`, in Dafny

This project models the Go function-signature parser of the `gocode` Python
package (`gocode/gocode.py`) and proves properties of it. The parser turns a
type string such as `func(a, b int, c chan int) (int, error)` into two ordered
lists of `(name or None, type)` pairs: one for the parameters and one for the
results. It is built from five pure string functions, and each one is a
Dafny function here:

| Python | Dafny | file |
|---|---|---|
| `parse_param_parts` | `Segments.ParseParamParts` | `segments.dfy` |
| `remove_type_spaces` | `Normalize.RemoveTypeSpaces` | `normalize.dfy` |
| `is_named` | `Classify.IsNamed` | `classify.dfy` |
| `parse_params` | `Params.ParseParams` | `params.dfy` |
| `parse_func` and `Error` | `Signature.ParseFunc`, `Signature.Error` | `signature.dfy` |

Supporting files:

- `outcomes.dfy` holds `Option` and `Result`. A raised `Error` becomes `Failure(InvalidFunctionSource(src))`.
- `text.dfy` holds the string primitives the code relies on:
  - `Text.IsSpace` is the whitespace set of Python 3.4 and later. It is what `str.isspace()`, `str.strip()` and `\s` in a `str` pattern all use.
  - `Text.Trim` is `str.strip()`.
  - `Text.Partition` is `str.partition(" ")`, which splits on a literal space only.
  - `Text.Depth` is the parenthesis count: `(` minus `)`.
- `examples.dfy` holds the cases of `gocode/test_gocode.py` and the docstring examples of `parse_func`. Each is stated as a lemma about the model.

Each Python loop becomes a recursive function whose parameters are the loop
variables. Examples: `Segments.PartsFrom` for the `parse_param_parts` loop,
`Classify.NamedScan` for `is_named`, `Params.Backfill` for the named path
of `parse_params`, and `Signature.CloseScan` for `parse_func`.

Each of these scans has a partner: an independent description, and a lemma
proving the scan meets it.

- Segment splitting is described by cut positions, `Segments.IsCut`. A cut is a `,` or `)` where `Depth` of the prefix is 1.
- Classification is described by top-level whitespace, `Classify.TopLevelSpace`.
- The named path is described entry by entry:
  - `Params.Covered` gives how many segments receive a type.
  - `Params.NextTyped` gives the typed segment that supplies each entry's type.
  - `Params.Assigned` gives the resulting list.
- The closing parenthesis of `parse_func` is described by `Signature.FirstClose`.

The two regular-expression substitutions of `remove_type_spaces` are written
out as explicit scans:

- `func\(.*\)\s+` is greedy and `.` does not cross a newline. The match runs from the leftmost `func(` to the last `)` before the end of the line that has whitespace after it. The match then takes all of that whitespace. This is `Normalize.FuncMatchEnd`.
- `chan\s+` is `Normalize.ChanMatchEnd`.

`re.sub` replaces the leftmost match and then carries on after it. This is
`Normalize.FuncSub` and `Normalize.ChanSub`.

## Where the code departs from Go's grammar

The model follows what the code does, including where its output differs from
what a Go signature means:

- On the named path, bare names left pending after the last typed segment are dropped without any error (`gocode/gocode.py:110-120`). Go's grammar never ends a parameter list with a bare name, but nothing in those lines raises for it. For example, `(a int, b)` gives `[("a", "int")]`; this is `Examples.ParamsOfDangling`.
- `()` splits into one empty segment. So `parse_params("()")` is `[(None, "")]`, not an empty list (`Examples.ParamsOfEmptyList`).
- A function with no results, `func()`, gets the result list `[(None, "")]`, because `parse_params("")` is `[(None, "")]` (`Examples.FuncWithoutResults`).
- On the named path the name is the head of the normalised segment, and the type is the tail of the original segment. So a bare `chan int` inside a named list would give the name `chan_int`.

## Model

| member | source | states |
|---|---|---|
| Text.Trim | gocode/gocode.py:175 | `strip()` leaves no whitespace at either end and never lengthens the text |
| Text.TrimIsSlice | gocode/gocode.py:175 | `strip()` removes only whitespace, and only from the two ends: the result is a contiguous slice of the input with whitespace on both sides of it |
| Text.TrimIdempotent | gocode/gocode.py:62 | stripping a stripped text changes nothing |
| Text.Partition | gocode/gocode.py:113 | `partition(" ")`: when the separator occurs, the text is the head, the separator and the tail, and the head holds no separator; otherwise the head is the whole text and the tail is empty |
| Text.PartitionAt | gocode/gocode.py:113 | `partition(" ")` splits at the first literal space: the head is the text before it and the tail the text after it |
| Text.PartitionNone | gocode/gocode.py:116 | with no space in the text, the tail is empty and the head is the whole text |
| Text.DepthStep | gocode/gocode.py:178-181 | reading one more character moves the parenthesis counter by +1 for `(`, -1 for `)`, and 0 otherwise |
| Normalize.FuncMatchEnd | gocode/gocode.py:127 | `func\(.*\)\s+` matches at a position exactly when the text starts with `func(` and a `)` followed by whitespace occurs before the end of the line; greedy `.*` picks the LAST such `)` on the line, and the match runs through the whole whitespace run after it, ending at a non-space character or at the end of the text |
| Normalize.ChanMatchEnd | gocode/gocode.py:128 | `chan\s+` matches exactly when `chan` and a whitespace character come first; everything from index 4 to the match end is whitespace, and the match stops at a non-space character or at the end of the text |
| Normalize.RemoveTypeSpacesFacts | gocode/gocode.py:123-129 | normalisation never adds whitespace; a segment without whitespace comes back unchanged; the result never holds `chan` followed by whitespace |
| Normalize.FuncSubNoMatch | gocode/gocode.py:127 | without a `)` followed by whitespace, the function-type substitution leaves the text unchanged |
| Normalize.ChanSubNoMatch | gocode/gocode.py:128 | without `chan` followed by whitespace, the channel substitution leaves the text unchanged |
| Normalize.FuncTypeCollapse | gocode/gocode.py:127 | `func(X) Y` becomes `func()_Y` for a parameter text `X` with no newline (nested parentheses, commas and spaces are allowed) and a non-empty `Y` that starts with a non-space character and holds no `)` or newline |
| Normalize.ChanCollapse | gocode/gocode.py:128 | `chan Y` becomes `chan_Y` for a non-empty `Y` that starts with a non-space character and holds no `h` (so no second `chan` follows) |
| Normalize.RemoveTypeSpacesPlain | gocode/gocode.py:123-129 | a segment with neither `)` nor `h` is unchanged by normalisation |
| Classify.NamedScanFinds | gocode/gocode.py:139-148 | the scan of `is_named`, started at any index with the true depth there, answers true exactly when whitespace at depth 0 follows |
| Classify.IsNamedIff | gocode/gocode.py:131-148 | `is_named(p)` holds exactly when the normalised `p` has a whitespace character at parenthesis depth 0 (both directions) |
| Classify.NoSpaceNotNamed | gocode/gocode.py:131-148 | a segment with no whitespace is never named |
| Segments.ParseParamParts | gocode/gocode.py:166-182 | text not starting with `(` is its own single segment; otherwise every segment is whitespace-trimmed |
| Segments.PartsFromTrimmed | gocode/gocode.py:175 | every segment the loop appends is stripped |
| Segments.CutsExactly | gocode/gocode.py:171-181 | the cut list holds exactly the `,`/`)` positions read at depth 1 |
| Segments.PartsFromCuts | gocode/gocode.py:171-182 | the splitting loop yields, in order, the stripped text between consecutive cuts |
| Segments.PartsAreCutPieces | gocode/gocode.py:166-182 | for a list starting with `(`, there is one segment per cut, and segment `k` is the stripped text from just after the previous cut (or the opening `(`) up to cut `k` |
| Segments.PartsOfList | gocode/gocode.py:151-182 | a list written as `(` + segments joined by `", "` + `)` splits back into exactly those segments, provided each segment is trimmed and balanced; nested commas stay inside their segment |
| Params.JustTypes | gocode/gocode.py:105-108 | the just-types path pairs `None` with each segment, same length and order |
| Params.Emit | gocode/gocode.py:117-118 | a group of pending names is emitted in order, all with one type |
| Params.ParseParamsBare | gocode/gocode.py:95-96 | text not starting with `(` gives exactly `[(None, src)]` |
| Params.ParseParamsJustTypes | gocode/gocode.py:97-108 | when no segment is named, the result pairs `None` with each segment of `parse_param_parts`, same length and order |
| Params.BackfillSpec | gocode/gocode.py:110-120 | the pending-names loop emits, for each segment up to the last typed one, its name with the original type of the next typed segment; names still pending at the end are dropped |
| Params.BackfillFromStart | gocode/gocode.py:110-120 | started with no pending names, the loop's output is the entry-by-entry description |
| Params.AssignedAt | gocode/gocode.py:110-120 | entry `k` of the named result is segment `k`'s name paired with the original type of the first typed segment at or after `k` |
| Params.ParseListNamed | gocode/gocode.py:110-120 | once some segment is named, the result has one entry per segment up to the last typed one, so never more entries than segments |
| Params.ParseParamsNamed | gocode/gocode.py:97-120 | on the named path, entry `k` is `(name of segment k, original type of the next typed segment)` and the length is the number of segments covered by a typed segment |
| Params.NamesAllOrNone | gocode/gocode.py:95-120 | a result has names on every entry or on none |
| Params.AssignedGroup | gocode/gocode.py:115-119 | a bare name and the typed segment that closes its group share the same type, and every segment between them is bare |
| Params.GroupEndsAtTypedSegment | gocode/gocode.py:110-120 | for every entry of a named result, the typed segment closing its group is itself an entry with the same type |
| Params.AllTypedAssigned | gocode/gocode.py:115-119 | when every segment is typed, each entry is that segment's own name and type |
| Params.BackfillAllTyped | gocode/gocode.py:110-120 | when every segment is typed, the loop keeps every segment, each with its own name and original type |
| Params.ParseParamsOfList | gocode/gocode.py:95-97 | a parenthesised list of clean segments is read segment by segment |
| Signature.Message | gocode/gocode.py:52 | the error text is `invalid function source: ` followed by the rejected source |
| Signature.ParseFunc | gocode/gocode.py:51-63 | fails with `Error(src)` exactly when `src` does not start with `func(` or its parentheses from index 4 never return to depth 0; otherwise it splits at the first return to depth 0 into the parameter text (from the `(` to that `)`) and the stripped remainder |
| Signature.CloseScanFinds | gocode/gocode.py:54-61 | the depth loop stops at the first index where the count from index 4 is 0, or finds none |
| Signature.FirstCloseUnique | gocode/gocode.py:56-62 | the closing parenthesis is unique |
| Signature.DepthPositiveBefore | gocode/gocode.py:55-61 | before the closing parenthesis, the count stays positive |
| Signature.ParamTextShape | gocode/gocode.py:62 | the parameter text handed to `parse_params` is a balanced `(`…`)` with at least one segment |
| Signature.ParseFuncParams | gocode/gocode.py:62 | the parameters of an accepted source are always read as a parenthesised list |
| Signature.ParseFuncOfList | gocode/gocode.py:51-63 | `func` + a written-out list + any rest parses to the list's parameters and the stripped rest's results |
| Examples.IsNamedRejectsBare | gocode/test_gocode.py:15-16 | `error` and `a` are not named |
| Examples.IsNamedRejectsChan | gocode/test_gocode.py:17 | `chan int` is not named |
| Examples.IsNamedRejectsFunc | gocode/test_gocode.py:18 | `func(a, b int) error` is not named |
| Examples.IsNamedAcceptsPlain | gocode/test_gocode.py:19-20 | `a int` and `err error` are named |
| Examples.IsNamedAcceptsChan | gocode/test_gocode.py:21 | `c chan int` is named |
| Examples.IsNamedAcceptsFunc | gocode/test_gocode.py:22 | `f func(a, b int) error` is named |
| Examples.PartsOfBareType | gocode/test_gocode.py:29 | `error` is one segment |
| Examples.PartsOfTypes | gocode/test_gocode.py:30 | `(int, error)` gives `int`, `error` |
| Examples.PartsOfGroupedNames | gocode/test_gocode.py:31 | `(a, b int, err error)` gives `a`, `b int`, `err error` |
| Examples.PartsOfNestedFunc | gocode/test_gocode.py:32 | the comma inside a nested `func(c, d int)` does not split its segment |
| Examples.TypesShape | gocode/gocode.py:97-108 | for any two words (non-empty, with no whitespace, parentheses, commas or `h`) `T1` and `T2`, `(T1, T2)` gives two unnamed entries |
| Examples.ParamsOfBareType | gocode/test_gocode.py:39-41 | `error` gives `[(None, "error")]` |
| Examples.ParamsOfTypes | gocode/test_gocode.py:42-45 | `(int, error)` gives two unnamed entries |
| Examples.ParamsOfGroupedNames | gocode/test_gocode.py:46-50 | `a` takes the type of `b int` |
| Examples.ParamsOfNestedFunc | gocode/test_gocode.py:51-55 | a function type is kept verbatim as a type |
| Examples.ParamsOfSharedFunc | gocode/test_gocode.py:56-59 | `a` and `b` share the function type `func(c, d int) error` |
| Examples.ParamsOfSliceChan | gocode/test_gocode.py:60-63 | the type `[]chan int` keeps its space |
| Examples.ParamsOfTypeAndChan | gocode/test_gocode.py:64-67 | `(int, chan int)` gives two unnamed entries |
| Examples.ParamsOfDangling | gocode/gocode.py:110-120 | `(a int, b)` drops the trailing bare name `b` without an error |
| Examples.ParamsOfEmptyList | gocode/gocode.py:166-182 | `()` gives one unnamed empty entry |
| Examples.MixedShape | gocode/gocode.py:110-120 | for any words (non-empty, with no whitespace, parentheses, commas or `h`) `A`, `B`, `I`, `C`, `D` (`D` also without `u`) and `E`, a prefix `Q` with no whitespace, parenthesis, comma, `h` or `c`, and a parameter text `X` with no parenthesis or newline, the mixed list `(A, B I, C Qchan I, D func(X) E)` gives `A` and `B` the type `I`, and `C` and `D` their original types |
| Examples.FuncOneShape | gocode/gocode.py:51-63 | for any words (non-empty, with no whitespace, parentheses, commas or `h`) `A`, `I` and `E`, `func(A I) E` gives `([(A, I)], [(None, E)])` |
| Examples.FuncNamedResultsShape | gocode/gocode.py:51-63 | for any words (non-empty, with no whitespace, parentheses, commas or `h`) `A`, `I`, `N` and `M`, `func(A I) (N I, M I)` gives one named parameter and two named results |
| Examples.FuncOfOneParam | gocode/test_gocode.py:74-77 | `func(a int) error` gives `([("a", "int")], [(None, "error")])` |
| Examples.FuncOfMixedParams | gocode/test_gocode.py:78-88 | the docstring's grouped, channel and function-type parameters, with results `(int, error)` |
| Examples.FuncOfNamedResults | gocode/test_gocode.py:89-96 | `func(a int) (num int, den int)` gives named results |
| Examples.FuncRejectsOtherText | gocode/gocode.py:51-52 | `nope(a int)` is rejected with its own text |
| Examples.FuncRejectsUnclosed | gocode/gocode.py:56-63 | `func(a int` is rejected because the list never closes |
| Examples.FuncWithoutResults | gocode/gocode.py:62 | `func()` gives one empty parameter entry and one empty result entry |

## Left out

- `autocomplete` (`gocode/gocode.py:5-11`): it runs the external `gocode` process and decodes its JSON output. That is process I/O and a foreign call.
- `cmd/cmd.py`: subprocess handling, pipes and byte decoding are process I/O.
- The commented-out earlier versions of `parse_params` and `parse_returns` (`gocode/gocode.py:184-251`): they are dead code.
- The `unittest` runner (`gocode/test_gocode.py:1-13`, `98-99`). Its cases are lemmas in `examples.dfy`.
- Python's regular-expression engine in general. Only the two patterns of `remove_type_spaces` are modelled.
- `Text.IsSpace` follows the whitespace table of Python 3.4 and later. Under Python 3.3 (Unicode 6.1), U+180E MONGOLIAN VOWEL SEPARATOR is also whitespace for `isspace()`, `strip()` and `\s`; the model does not include it.
- `Error` as an exception class (`gocode/gocode.py:253-255`): raising is modelled as a `Failure` result, not as control flow.
