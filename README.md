# restfulsql in Dafny

A model of the Go package `restfulsql` (the single file `restfulsql.go`),
which turns a decoded JSON query `[mode, fields, values]` into a
parenthesised boolean string such as `(a = 10) AND ((b = 2) AND ((c = 2) OR (d = 3)))`.
A field may itself be a nested query triple. Such a field is detected by
shape (an array that holds an array) and flattened in place into the
string of its own triple before the top level is joined.

The model is organised by module:

- `json.dfy` (`Json`): `JValue`, the decoded `[]interface{}` tree
  (`Str | Num | Bool | Null | Arr`). Also Go's `%v` and `%s` printing of
  such values, including fmt's `%!s(float64=2)` complaint and the
  exponent form of large float64 integers.
- `restfulsql.dfy` (`RestfulSql`): the pure parts.
  - Shape validation (`unmarshalToRSQLStruct`) and the length check (`checkLength`).
  - The nested-entry detector (`findNestedRSQL`, `containsType`).
  - The string builder (`buildString`).
  - Each loop of the source is a method proved equal to a specification function.
- `flatten.dfy` (`Flattening`): `falttenNestedRSQL` as in-place methods on an
  array of fields, proved against the functions `Flattened` and `FlatteningStep`.
- `parser.dfy` (`Parsing`): the `Parser` object with its `Query` field, and
  the RSQL object it holds between `Parse` and `Compile`, as classes.
- `examples.dfy` (`Examples`): the queries of `restfulsql_test.go`, stated as lemmas about the model.

### Behaviour kept as the code has it

- **Hard-coded index 1.** For every nested index `v`, the triple is read from
  `fieldsSlice[1]`, and its string is stored in `fieldsSlice[v]`. Any `v` is modelled.
  - A slice too short for index 1 panics, and so does an index-1 entry that is not an array.
  - Entry `v` of that triple being absent or a number, bool or null also panics.
  - These panics are an explicit `Panicked` / `Panic` outcome.
  - `Examples.CompileNestedFirst` shows a nested entry at index 0 panicking.
  - `Parsing.CompileNotRepeatable` shows that compiling twice panics when a nested entry sat at index 1.
- **Aliasing.** The recursive call flattens the nested triple's own fields
  slice in place. `unmarshalToRSQLStruct(targetingFields)` then reads that
  write. `FlattenEntry` copies the child slice into its own array,
  flattens it, and writes it back into `fields[1]` before the triple is
  re-validated. A decoded tree shares no slices, so this is the same effect.
- **Double parentheses.** A flattened entry is a string whose value slot holds `""`,
  so it prints as `(` + string + `)`. This is where `((c = 2))` comes from.
- **Length checks.** `Parse` checks lengths only at the top level. A
  mismatch in a nested triple surfaces only from `Compile`, as
  `NumOfFieldAndValueMismatch` (`Examples.ParseShortValues`, `Examples.CompileShortValues`).

- **Partial writes stay.** The in-place writes of a flatten that then fails
  stay visible in `Query.Fields`. A shape-valid query with mismatched lengths
  is still stored in `Query` before `Parse` reports the mismatch
  (`Parsing.QueryAfterParse`).
- **Decoder errors.** Text that is not JSON and JSON that is not an array give
  two different errors, `DecodeSyntax` and `DecodeType`. The JSON text `null`
  leaves `Query` nil, and `Parse` panics in `checkLength`.
- **Number printing.** `%v` prints a float64 integer with its exact digits below
  10^6 in magnitude and in exponent form from 10^6 on (`1e+06`, `2e+07`).
  A value that is not a string prints under `%s` as fmt's complaint, such as
  `%!s(float64=2)`.

## Model

| member | source | states |
|---|---|---|
| Json.NatToString | restfulsql.go:180 | the decimal digits `%v` prints for a whole number: non-empty, digits only |
| Json.NatToStringValue | restfulsql.go:180 | the printed digits read back as the number; a leading '0' only for 0 |
| Json.FormatNumPlain | restfulsql.go:176-180 | below 10^6 in magnitude a float64 integer prints as an optional '-' and its exact digits |
| Json.FormatNum | restfulsql.go:176-180 | `%v` of a float64 integer is non-empty and starts with '-' exactly when the number is negative |
| Json.Scientific | restfulsql.go:176-180 | the exponent form opens with the number's first digit |
| Json.ExponentForm | restfulsql.go:180 | from 10^6 on, a digit d times 10^k prints as d, `e+` and the exponent with at least two digits |
| Json.ExponentMillion | restfulsql.go:180 | 1000000 prints as `1e+06` |
| Json.ExponentTwentyMillion | restfulsql.go:180 | 20000000 prints as `2e+07` |
| Json.FormatV | restfulsql.go:176-180 | `%v` of a slice is bracketed by '[' and ']' |
| Json.FormatS | restfulsql.go:173 | `%s` of a slice is bracketed; `%s` of a number, bool or nil starts with fmt's `%!s` complaint |
| Json.FormatSOfStrings | restfulsql.go:173-176 | a value built from strings alone prints the same under `%s` and `%v` |
| RestfulSql.ContainsArray | restfulsql.go:154-163 | true iff some element is a slice |
| RestfulSql.ContainsType | restfulsql.go:154-163 | the loop returns true iff some element is a slice |
| RestfulSql.IsNested | restfulsql.go:144-145 | an entry is nested iff it is a slice with some slice among its elements |
| RestfulSql.NestedIndexes | restfulsql.go:139-152 | indexes in range, strictly increasing; i is listed iff entry i is a slice holding a slice |
| RestfulSql.FindNestedRsql | restfulsql.go:139-152 | the loop's count equals the index list's length, and the list is `NestedIndexes` |
| RestfulSql.NoNestedNoIndexes | restfulsql.go:139-152 | a slice without nested entries gives the empty index list |
| RestfulSql.UnmarshalToRsql | restfulsql.go:109-137 | Ok iff exactly three elements: a string and two slices; every failure is InvalidRestfulSQL; an Ok keeps mode, fields and values unchanged, and its stored lengths and indexes match them |
| RestfulSql.CheckLength | restfulsql.go:70-76 | for a consistent RSQL: NumOfFieldAndValueMismatch iff the lengths differ, nil iff they are equal |
| RestfulSql.Fragment | restfulsql.go:169-181 | every fragment opens with '(' |
| RestfulSql.FragmentsParenthesised | restfulsql.go:169-181 | every fragment also closes with ')' |
| RestfulSql.Fragments | restfulsql.go:168-182 | one fragment per field, in field order |
| RestfulSql.Rendered | restfulsql.go:165-184 | no fields give "", one field gives exactly its fragment, more give a string opening with '(' and closing with ')' |
| RestfulSql.JoinSnoc | restfulsql.go:184 | joining one more part appends the separator and that part |
| RestfulSql.RenderedSnoc | restfulsql.go:165-184 | field order is kept: one more field appends `" " + mode + " "` and its fragment |
| RestfulSql.BuildString | restfulsql.go:165-184 | the loop filling `queries`, then the join, yields `Rendered` |
| Flattening.StoreNested | restfulsql.go:199-209 | length and depth kept; only slots 1 and v change; slot 1 shows the (flattened) triple; on success slot v holds a string |
| Flattening.FlatteningStep | restfulsql.go:189-209 | one loop iteration keeps the slice length and does not deepen it |
| Flattening.Flattened | restfulsql.go:187-213 | the loop keeps the slice length and does not deepen it (the recursion's measure) |
| Flattening.FlattenNestedRsql | restfulsql.go:187-213 | the in-place loop leaves exactly the status and contents `Flattened` gives |
| Flattening.FlattenAt | restfulsql.go:189-210 | one in-place iteration leaves exactly the status and contents `FlatteningStep` gives |
| Flattening.FlattenEntry | restfulsql.go:190-197 | the recursive in-place flatten of entry v is seen through `fields[1]`; its status is the child's |
| Flattening.StoreAt | restfulsql.go:199-209 | the in-place validate, build and store equals `StoreNested` |
| Flattening.FlatInputUnchanged | restfulsql.go:187-213 | a slice without nested entries has no indexes, and flattening it succeeds and changes nothing |
| Flattening.StepFrame | restfulsql.go:189-210 | one iteration touches only slots 1 and v; success leaves a string in slot v; a short slice or non-slice slot 1 panics |
| Flattening.FlattenFrame | restfulsql.go:187-213 | unlisted slots other than 1 are kept; after success every listed index holds a string; slot 1 is kept when neither nested nor listed; a missing or non-slice slot 1 panics |
| Flattening.FlattenLeavesNoNested | restfulsql.go:187-213 | after a successful flatten of a slice's own nested entries none is left |
| Flattening.FlattenIndexOne | restfulsql.go:190-209 | for the entry at index 1: grandchildren are flattened first; an inner failure, a bad shape or a length mismatch is the result; otherwise slot 1 becomes the triple's string and all else is kept |
| Parsing.ParseQuery | restfulsql.go:47-59 | for a decoded array: InvalidRestfulSQL iff the shape is wrong, NumOfFieldAndValueMismatch iff shaped with unequal lengths, success iff shaped with equal lengths, keeping mode, fields and values |
| Parsing.QueryAfterParse | restfulsql.go:84-107 | a successful parse stores the parsed RSQL; a syntax error keeps the old object; any other JSON but null leaves an object |
| Parsing.Compiled | restfulsql.go:61-68 | the fields keep their length; success is `buildString` of the flattened fields; a consistent RSQL compiles only from fields with no nested entry left |
| Parsing.ParseTriple | restfulsql.go:47-59 | a well-shaped triple with equal lengths parses to the RSQL built from it |
| Parsing.FlatQueryCompiles | restfulsql.go:61-68 | a flat query with equal lengths compiles to its fragments joined by the mode |
| Parsing.NestedQueryCompiles | restfulsql.go:61-68 | when the nested entries flatten without error, the result is the string of the flattened fields |
| Parsing.NestedQueryFails | restfulsql.go:62-65 | when the flatten fails or panics, so does Compile, with the same error |
| Parsing.CompileNotRepeatable | restfulsql.go:190 | a second Compile of a query with a nested entry at index 1 panics |
| Parsing.ParseAndCompile | restfulsql.go:47-68 | a parse error is returned as is; a compiled string renders the parsed mode and values around fields with no nested entry left |
| Parsing.Query.constructor | restfulsql.go:12-24 | a new RSQL object holds the given RSQL and is valid |
| Parsing.Query.Assign | restfulsql.go:96-105 | after the assignments the object holds the parsed RSQL |
| Parsing.Parser.constructor | restfulsql.go:40-44 | a new parser holds the raw query and no RSQL object |
| Parsing.Parser.Parse | restfulsql.go:47-59 | the stored object is `QueryAfterParse`; the result succeeds or fails exactly as `ParseQuery`, with its error |
| Parsing.Parser.Compile | restfulsql.go:61-68 | without an object it panics; otherwise result and new fields are `Compiled` of the stored RSQL |
| Examples.RenderedPair | restfulsql.go:184 | two fields give fragment, separator, fragment |
| Examples.NestedCounts | restfulsql_test.go:136-165 | each level of the test query has one nested entry at index 1, the innermost none |
| Examples.NestedIndexesOfTriple | restfulsql.go:139-152 | on a query triple only the fields slice can be nested, and it is iff some field is a slice |
| Examples.NestedSqlCount | restfulsql_test.go:74-91 | the middle triple, its fields and the innermost triple of the test query have one, one and no nested entries |
| Examples.RenderSingle | restfulsql_test.go:107-114 | `buildString("AND", ["a"], [2])` is "(a = 2)" |
| Examples.RenderTwoFields | restfulsql_test.go:116-123 | `buildString("AND", ["a", "b"], [2, "2"])` is "(a = 2) AND (b = '2')" |
| Examples.FlattenTripleAtOne | restfulsql.go:190-209 | a two-entry slice with a triple at index 1 flattens to its string, or fails with the length mismatch |
| Examples.FlattenFlatQuery | restfulsql_test.go:130-140 | a flat query has no indexes, and flattening changes nothing |
| Examples.FlattenNestedOnce | restfulsql_test.go:142-154 | the fields become ["b", "(c = 2)"] |
| Examples.FlattenThreeLevels | restfulsql_test.go:156-169 | the fields become ["a", "(b = 2) AND ((c = 2) OR (d = 3))"] |
| Examples.CompileTwoFields | restfulsql_test.go:36-45 | compiles to "(a = 2) AND (b = '2')" |
| Examples.CompileNestedOnce | restfulsql_test.go:47-56 | compiles to "(b = 2) AND ((c = 2))" |
| Examples.CompileThreeLevels | restfulsql_test.go:58-67 | compiles to "(a = 10) AND ((b = 2) AND ((c = 2) OR (d = 3)))" |
| Examples.ParseShortValues | restfulsql_test.go:15-29 | a query whose inner triple has too few values parses, with mode, fields and values as written |
| Examples.CompileShortValues | restfulsql.go:199-206 | compiling that query fails with NumOfFieldAndValueMismatch |
| Examples.CompileNestedFirst | restfulsql.go:190 | a nested entry at index 0 parses, then Compile panics |
| Examples.ParseBadShapes | restfulsql.go:109-129 | a two-element array or a numeric mode is InvalidRestfulSQL; unequal lengths are a mismatch; non-array JSON and non-JSON are decoder errors |
| Examples.ContainsTypeExample | restfulsql_test.go:97-100 | `["a", ["b", ["c"]]]` holds a slice |

## Left out

- Decoding JSON text (`encoding/json`, lines 48 and 86) is not modelled. `RawQuery` is either `Malformed` (a syntax error) or the decoded tree.
- JSON objects are not modelled. They decode to maps, and like any other non-array value they give `DecodeType` in `Parse`.
- Numbers: only float64 values that hold integers are modelled (`Num(int)`). Fractions, and the rounding of integers beyond 2^53, are not.
- `reflect` and the `%T` comparisons are not modelled. They become constructor tests on `JValue`.
- The `refFields` / `refValues` fields of RSQL are not modelled. They only feed the stored lengths.
- `Parsing.Parser.Parse`: the contract states what the `Query` object holds afterwards (`State`). It does not state that an existing object is reused rather than replaced, though the method does reuse it.
- `Parsing.Query.Assign`: copies the parsed fields into a fresh array. Go shares the decoded slice, which nothing else holds.
- The commented-out `checkFieldsDuplication` (lines 78-81) is not modelled. It has no code.
- Concurrency is not modelled. The package has none.
- `RestfulSql.Rendered`: a field without a value is an index panic in `buildString` (line 170). It is a precondition here. Every caller in the model (`Compiled`, `StoreNested`) checks the lengths first, so that path returns `Panic` or cannot occur.
- Go's stack overflow on very deep nesting is not modelled.
