/*
 * The checks and builders of restfulsql.go: the shape validator
 * `unmarshalToRSQLStruct`, the length check `checkLength`, the structural
 * nested-entry detector `findNestedRSQL` / `containsType`, and the string
 * builder `buildString`. Each loop of the source is a method proved against
 * the function that specifies it.
 */
module RestfulSql {
  import opened Json

  /** The errors the package returns, plus the two kinds the JSON decoder reports. */
  datatype Error =
    | InvalidRestfulSQL              // ErrInvalidRestfulSQL
    | NumOfFieldAndValueMismatch     // ErrNumOfFieldAndValueMismatch
    | DecodeSyntax                   // the input text is not JSON
    | DecodeType                     // JSON, but not an array

  datatype Option<T> = None | Some(value: T)

  /** A Go `(T, error)` pair where the error is nil exactly when a value is present. */
  datatype Result<T> = Ok(value: T) | Err(error: Error)

  /**
   * The RSQL struct as `unmarshalToRSQLStruct` fills it: the triple itself,
   * the lengths it stores, and the result of `findNestedRSQL` on the fields.
   */
  datatype Rsql = Rsql(
    mode: string,
    fields: seq<JValue>,
    values: seq<JValue>,
    fieldsLength: nat,
    valuesLength: nat,
    nestedCount: nat,
    nestedIndexes: seq<nat>)

  /** What the constructor of an RSQL value leaves: the stored lengths and indexes agree with the slices. */
  ghost predicate Consistent(q: Rsql)
  {
    && q.fieldsLength == |q.fields|
    && q.valuesLength == |q.values|
    && q.nestedCount == |q.nestedIndexes|
    && q.nestedIndexes == NestedIndexes(q.fields)
  }

  // ---------------------------------------------------------------------
  // Nested-entry detection (findNestedRSQL, containsType)
  // ---------------------------------------------------------------------

  /** `containsType(es, []interface{})`: some element of `es` is itself an array. */
  function ContainsArray(es: seq<JValue>): (r: bool)
    ensures r <==> exists i :: 0 <= i < |es| && es[i].Arr?
  {
    es != [] && (es[0].Arr? || ContainsArray(es[1..]))
  }

  /** A field entry counts as a nested RSQL when it is an array holding an array. */
  function IsNested(x: JValue): (r: bool)
    ensures r <==> x.Arr? && exists i :: 0 <= i < |x.elems| && x.elems[i].Arr?
  {
    x.Arr? && ContainsArray(x.elems)
  }

  /**
   * The index list `findNestedRSQL` builds for a fields slice: the positions
   * of the nested entries, in increasing order.
   */
  function NestedIndexes(fields: seq<JValue>): (r: seq<nat>)
    ensures forall k :: 0 <= k < |r| ==> r[k] < |fields|
    ensures forall k, l :: 0 <= k < l < |r| ==> r[k] < r[l]
    ensures forall i :: 0 <= i < |fields| ==> (i in r <==> IsNested(fields[i]))
  {
    if fields == [] then []
    else
      var last := |fields| - 1;
      NestedIndexes(fields[..last]) + (if IsNested(fields[last]) then [last] else [])
  }

  /** A slice without nested entries yields the empty index list (count 0). */
  lemma {:induction false} NoNestedNoIndexes(fields: seq<JValue>)
    requires forall i :: 0 <= i < |fields| ==> !IsNested(fields[i])
    ensures NestedIndexes(fields) == []
  {
    if fields != [] {
      NoNestedNoIndexes(fields[..|fields| - 1]);
    }
  }

  /** The loop of `containsType`. */
  method ContainsType(es: seq<JValue>) returns (found: bool)
    ensures found <==> exists i :: 0 <= i < |es| && es[i].Arr?
  {
    for i := 0 to |es|
      invariant forall j :: 0 <= j < i ==> !es[j].Arr?
    {
      if es[i].Arr? {
        return true;
      }
    }
    return false;
  }

  /** The loop of `findNestedRSQL`: a counter and an index list grown together. */
  method FindNestedRsql(fields: seq<JValue>) returns (count: nat, indexes: seq<nat>)
    ensures count == |indexes|
    ensures indexes == NestedIndexes(fields)
  {
    count, indexes := 0, [];
    for i := 0 to |fields|
      invariant count == |indexes|
      invariant indexes == NestedIndexes(fields[..i])
    {
      var nested := false;
      if fields[i].Arr? {
        nested := ContainsType(fields[i].elems);
      }
      if nested {
        indexes := indexes + [i];
        count := count + 1;
      }
      assert fields[..i + 1][..i] == fields[..i];
    }
    assert fields[..|fields|] == fields;
  }

  // ---------------------------------------------------------------------
  // Shape validation (unmarshalToRSQLStruct, checkLength)
  // ---------------------------------------------------------------------

  /**
   * `unmarshalToRSQLStruct`: a decoded list is an RSQL when it has exactly
   * three elements, a string and two arrays; any other shape is
   * ErrInvalidRestfulSQL. The lengths are not compared here.
   */
  function UnmarshalToRsql(raw: seq<JValue>): (r: Result<Rsql>)
    ensures r.Ok? <==> |raw| == 3 && raw[0].Str? && raw[1].Arr? && raw[2].Arr?
    ensures r.Err? ==> r.error == InvalidRestfulSQL
    ensures r.Ok? ==> Consistent(r.value)
    ensures r.Ok? ==> r.value.mode == raw[0].s && r.value.fields == raw[1].elems && r.value.values == raw[2].elems
  {
    if |raw| != 3 then Err(InvalidRestfulSQL)
    else if !raw[0].Str? then Err(InvalidRestfulSQL)
    else if !raw[1].Arr? then Err(InvalidRestfulSQL)
    else if !raw[2].Arr? then Err(InvalidRestfulSQL)
    else
      var fields, values := raw[1].elems, raw[2].elems;
      var indexes := NestedIndexes(fields);
      Ok(Rsql(raw[0].s, fields, values, |fields|, |values|, |indexes|, indexes))
  }

  /** `checkLength`: the stored lengths must agree. */
  function CheckLength(q: Rsql): (err: Option<Error>)
    ensures Consistent(q) ==> (err == Some(NumOfFieldAndValueMismatch) <==> |q.fields| != |q.values|)
    ensures Consistent(q) ==> (err == None <==> |q.fields| == |q.values|)
  {
    if q.fieldsLength != q.valuesLength then Some(NumOfFieldAndValueMismatch) else None
  }

  // ---------------------------------------------------------------------
  // String building (buildString)
  // ---------------------------------------------------------------------

  /**
   * The clause for one position: an empty string value gives `(f)` (the
   * field printed with `%s`), any other string `(f = 'v')` with no
   * escaping, and any other value `(f = v)`.
   */
  function Fragment(field: JValue, value: JValue): (r: string)
    ensures |r| >= 2 && r[0] == '('
  {
    if value.Str? then
      if value.s == "" then "(" + FormatS(field) + ")"
      else "(" + FormatV(field) + " = '" + value.s + "')"
    else "(" + FormatV(field) + " = " + FormatV(value) + ")"
  }

  /** Every fragment is parenthesised: it also ends with `)`. */
  lemma FragmentsParenthesised(fields: seq<JValue>, values: seq<JValue>)
    requires |fields| <= |values|
    ensures forall i :: 0 <= i < |fields| ==>
      var p := Fragments(fields, values)[i];
      |p| >= 2 && p[0] == '(' && p[|p| - 1] == ')'
  {
  }

  /** `strings.Join`. */
  function Join(parts: seq<string>, sep: string): string
  {
    if parts == [] then ""
    else if |parts| == 1 then parts[0]
    else parts[0] + sep + Join(parts[1..], sep)
  }

  /** The separator `buildString` joins with. */
  function Separator(mode: string): string
  {
    " " + mode + " "
  }

  /** The `queries` slice of `buildString`: one fragment per field, in field order. */
  function Fragments(fields: seq<JValue>, values: seq<JValue>): (r: seq<string>)
    requires |fields| <= |values|
    ensures |r| == |fields|
    ensures forall i :: 0 <= i < |r| ==> r[i] == Fragment(fields[i], values[i])
  {
    seq(|fields|, i requires 0 <= i < |fields| => Fragment(fields[i], values[i]))
  }

  /**
   * The string `buildString` returns. Values beyond the last field are
   * ignored; a missing value is an index panic in the source, hence the
   * precondition.
   */
  function Rendered(mode: string, fields: seq<JValue>, values: seq<JValue>): (r: string)
    requires |fields| <= |values|
    ensures |fields| == 0 ==> r == ""
    ensures |fields| == 1 ==> r == Fragment(fields[0], values[0])
    ensures |fields| >= 1 ==> |r| >= 2 && r[0] == '(' && r[|r| - 1] == ')'
  {
    var parts := Fragments(fields, values);
    FragmentsParenthesised(fields, values);
    JoinEnds(parts, Separator(mode));
    Join(parts, Separator(mode))
  }

  lemma {:induction false} JoinEnds(parts: seq<string>, sep: string)
    requires forall i :: 0 <= i < |parts| ==> |parts[i]| >= 2 && parts[i][0] == '(' && parts[i][|parts[i]| - 1] == ')'
    ensures parts != [] ==> |Join(parts, sep)| >= 2
    ensures parts != [] ==> Join(parts, sep)[0] == '('
    ensures parts != [] ==> Join(parts, sep)[|Join(parts, sep)| - 1] == ')'
  {
    if |parts| > 1 {
      JoinEnds(parts[1..], sep);
    }
  }

  /** Joining one more part appends the separator and that part. */
  lemma {:induction false} JoinSnoc(parts: seq<string>, p: string, sep: string)
    requires parts != []
    ensures Join(parts + [p], sep) == Join(parts, sep) + sep + p
  {
    if |parts| == 1 {
      assert (parts + [p])[1..] == [p];
    } else {
      assert (parts + [p])[1..] == parts[1..] + [p];
      JoinSnoc(parts[1..], p, sep);
    }
  }

  /**
   * Field order is kept: the string for one more field is the string for
   * the previous fields, the separator, and the new fragment.
   */
  lemma RenderedSnoc(mode: string, fields: seq<JValue>, values: seq<JValue>, f: JValue, v: JValue)
    requires fields != [] && |fields| == |values|
    ensures Rendered(mode, fields + [f], values + [v])
         == Rendered(mode, fields, values) + Separator(mode) + Fragment(f, v)
  {
    var parts := Fragments(fields, values);
    var longer := Fragments(fields + [f], values + [v]);
    assert forall i :: 0 <= i < |parts| ==> longer[i] == parts[i];
    assert longer == parts + [Fragment(f, v)];
    JoinSnoc(parts, Fragment(f, v), Separator(mode));
  }

  /** The loop of `buildString`: fill `queries` position by position, then join. */
  method BuildString(mode: string, fields: seq<JValue>, values: seq<JValue>) returns (r: string)
    requires |fields| <= |values|
    ensures r == Rendered(mode, fields, values)
  {
    var queries := new string[|fields|];
    ghost var expected := Fragments(fields, values);
    for i := 0 to |fields|
      invariant forall j :: 0 <= j < i ==> queries[j] == expected[j]
    {
      var value := values[i];
      if value.Str? {
        if value.s == "" {
          queries[i] := "(" + FormatS(fields[i]) + ")";
        } else {
          queries[i] := "(" + FormatV(fields[i]) + " = '" + value.s + "')";
        }
      } else {
        queries[i] := "(" + FormatV(fields[i]) + " = " + FormatV(value) + ")";
      }
      assert queries[i] == expected[i];
    }
    assert queries[..] == expected;
    r := Join(queries[..], Separator(mode));
  }
}
