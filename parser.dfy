/*
 * The `Parser` of restfulsql.go and the RSQL object it keeps in its `Query`
 * field between `Parse` and `Compile`. `Parse` decodes the raw query into
 * that object (allocating it when there is none) and checks the top-level
 * lengths; `Compile` flattens the object's fields in place and builds the
 * final string.
 */
module Parsing {
  import opened Json
  import opened RestfulSql
  import opened Flattening

  /** The raw query as Go's JSON decoder sees it: not JSON at all, or a decoded tree. */
  datatype RawQuery = Malformed | WellFormed(tree: JValue)

  /** The `(T, error)` result of a public operation, or a Go runtime panic. */
  datatype Outcome<T> = Success(value: T) | Failure(error: Error) | Panic

  /** A freshly allocated RSQL that nothing was assigned to. */
  const ZeroRsql := Rsql("", [], [], 0, 0, 0, [])

  /**
   * What `Parse` returns for a raw query: a decoder error, a shape error,
   * a top-level length error, or the RSQL. Nested entries are not
   * inspected here, so a mismatch inside one does not fail the parse.
   * Decoding `null` leaves `Query` nil, which `checkLength` dereferences.
   */
  function ParseQuery(raw: RawQuery): (r: Outcome<Rsql>)
    ensures r.Success? ==> Consistent(r.value) && |r.value.fields| == |r.value.values|
    ensures raw.WellFormed? && raw.tree.Arr? ==>
      var es := raw.tree.elems;
      var shaped := |es| == 3 && es[0].Str? && es[1].Arr? && es[2].Arr?;
      && (r == Failure(InvalidRestfulSQL) <==> !shaped)
      && (r == Failure(NumOfFieldAndValueMismatch) <==> shaped && |es[1].elems| != |es[2].elems|)
      && (r.Success? <==> shaped && |es[1].elems| == |es[2].elems|)
      && (r.Success? ==> r.value.mode == es[0].s && r.value.fields == es[1].elems && r.value.values == es[2].elems)
  {
    match raw
    case Malformed => Failure(DecodeSyntax)
    case WellFormed(tree) =>
      match tree
      case Null => Panic
      case Arr(es) =>
        (match UnmarshalToRsql(es)
         case Err(e) => Failure(e)
         case Ok(q) =>
           match CheckLength(q)
           case Some(e) => Failure(e)
           case None => Success(q))
      case _ => Failure(DecodeType)
  }

  /**
   * What `Parser.Query` holds after `Parse`, given what it held before. A
   * syntax error leaves it alone; `null` sets it to nil; otherwise the
   * decoder allocates it when nil and `UnmarshalJSON` fills it only once
   * the shape is valid (even when the length check then fails).
   */
  function QueryAfterParse(prev: Option<Rsql>, raw: RawQuery): (r: Option<Rsql>)
    ensures ParseQuery(raw).Success? ==> r == Some(ParseQuery(raw).value)
    ensures raw.Malformed? ==> r == prev
    ensures raw.WellFormed? && !raw.tree.Null? ==> r.Some?
  {
    match raw
    case Malformed => prev
    case WellFormed(tree) =>
      if tree.Null? then None
      else if tree.Arr? && UnmarshalToRsql(tree.elems).Ok? then Some(UnmarshalToRsql(tree.elems).value)
      else if prev.None? then Some(ZeroRsql)
      else prev
  }

  /**
   * What `Compile` returns for the RSQL in `Query`, and that RSQL's fields
   * afterwards: flatten the stored nested indexes in place, then build the
   * string of the top level. A field without a value panics in
   * `buildString`.
   */
  function Compiled(q: Rsql): (r: (Outcome<string>, seq<JValue>))
    ensures |r.1| == |q.fields|
    ensures r.0.Success? ==> |q.fields| <= |q.values| && r.0.value == Rendered(q.mode, r.1, q.values)
    ensures Consistent(q) && r.0.Success? ==> NestedIndexes(r.1) == []
  {
    var flat := Flattened(q.fields, q.nestedIndexes);
    FlattenLeavesNoNested(q.fields);
    match flat.0
    case Failed(e) => (Failure(e), flat.1)
    case Panicked => (Panic, flat.1)
    case Done =>
      if |flat.1| <= |q.values| then (Success(Rendered(q.mode, flat.1, q.values)), flat.1)
      else (Panic, flat.1)
  }

  /**
   * `Parse` followed by `Compile` on a fresh parser: a parse error is
   * returned as is, and a compiled string renders the parsed mode and
   * values around fields that no longer hold a nested entry.
   */
  function ParseAndCompile(raw: RawQuery): (r: Outcome<string>)
    ensures ParseQuery(raw).Failure? ==> r == Failure(ParseQuery(raw).error)
    ensures ParseQuery(raw).Panic? ==> r.Panic?
    ensures r.Success? ==>
      && ParseQuery(raw).Success?
      && var q := ParseQuery(raw).value;
      && r.value == Rendered(q.mode, Compiled(q).1, q.values)
      && NestedIndexes(Compiled(q).1) == []
  {
    match ParseQuery(raw)
    case Success(q) => Compiled(q).0
    case Failure(e) => Failure(e)
    case Panic => Panic
  }

  /**
   * A query without nested entries and with matching lengths compiles to
   * its fragments joined by the mode, whatever its fields and values are.
   */
  lemma FlatQueryCompiles(mode: string, fields: seq<JValue>, values: seq<JValue>)
    requires |fields| == |values|
    requires forall i :: 0 <= i < |fields| ==> !IsNested(fields[i])
    ensures ParseAndCompile(WellFormed(Arr([Str(mode), Arr(fields), Arr(values)])))
         == Success(Rendered(mode, fields, values))
  {
    NoNestedNoIndexes(fields);
    ParseTriple(mode, fields, values);
    var q := Rsql(mode, fields, values, |fields|, |values|, 0, []);
    assert Flattened(fields, []) == (Done, fields);
    assert Compiled(q).0 == Success(Rendered(mode, fields, values));
  }

  /** A well-shaped triple with matching lengths parses to the RSQL built from it. */
  lemma ParseTriple(mode: string, fields: seq<JValue>, values: seq<JValue>)
    requires |fields| == |values|
    ensures
      var indexes := NestedIndexes(fields);
      ParseQuery(WellFormed(Arr([Str(mode), Arr(fields), Arr(values)])))
        == Success(Rsql(mode, fields, values, |fields|, |values|, |indexes|, indexes))
  {
  }

  /**
   * A query with matching lengths whose nested entries flatten without
   * error compiles to the fragments of the flattened fields.
   */
  lemma NestedQueryCompiles(mode: string, fields: seq<JValue>, values: seq<JValue>, flat: seq<JValue>)
    requires |fields| == |values|
    requires Flattened(fields, NestedIndexes(fields)) == (Done, flat)
    ensures |flat| == |values|
    ensures ParseAndCompile(WellFormed(Arr([Str(mode), Arr(fields), Arr(values)])))
         == Success(Rendered(mode, flat, values))
  {
    ParseTriple(mode, fields, values);
    var indexes := NestedIndexes(fields);
    var q := Rsql(mode, fields, values, |fields|, |values|, |indexes|, indexes);
    assert Compiled(q) == (Success(Rendered(mode, flat, values)), flat);
  }

  /**
   * A query with matching lengths whose flatten stops early compiles to
   * that error, or panics with it.
   */
  lemma NestedQueryFails(mode: string, fields: seq<JValue>, values: seq<JValue>)
    requires |fields| == |values|
    requires Flattened(fields, NestedIndexes(fields)).0 != Done
    ensures var st := Flattened(fields, NestedIndexes(fields)).0;
      ParseAndCompile(WellFormed(Arr([Str(mode), Arr(fields), Arr(values)])))
        == if st.Failed? then Failure(st.error) else Panic
  {
    ParseTriple(mode, fields, values);
  }

  /**
   * `Compile` cannot be repeated on a query whose nested entry sits at
   * index 1: the first run stores a string there, and the second reads it
   * back as a triple, a failed type assertion.
   */
  lemma CompileNotRepeatable(q: Rsql)
    requires Consistent(q) && 1 in q.nestedIndexes && Compiled(q).0.Success?
    ensures Compiled(q.(fields := Compiled(q).1)).0 == Panic
  {
    var flat := Flattened(q.fields, q.nestedIndexes);
    FlattenFrame(q.fields, q.nestedIndexes);
    var k :| 0 <= k < |q.nestedIndexes| && q.nestedIndexes[k] == 1;
    assert flat.1[1].Str?;
    FlattenFrame(flat.1, q.nestedIndexes);
  }

  /** The RSQL struct, as the object `Parser.Query` points to. */
  class Query {
    var mode: string
    var fields: array<JValue>
    var values: seq<JValue>
    var fieldsLength: nat
    var valuesLength: nat
    var nestedCount: nat
    var nestedIndexes: seq<nat>

    /** The stored lengths and index count agree with the slices, and the indexes are in range. */
    ghost predicate Valid()
      reads this
    {
      && fieldsLength == fields.Length
      && valuesLength == |values|
      && nestedCount == |nestedIndexes|
      && forall k :: 0 <= k < |nestedIndexes| ==> nestedIndexes[k] < fieldsLength
    }

    function Value(): Rsql
      reads this, fields
    {
      Rsql(mode, fields[..], values, fieldsLength, valuesLength, nestedCount, nestedIndexes)
    }

    constructor (q: Rsql)
      requires Consistent(q)
      ensures Valid() && Value() == q && fresh(fields)
    {
      var a := NewArray(q.fields);
      mode := q.mode;
      fields := a;
      values := q.values;
      fieldsLength := q.fieldsLength;
      valuesLength := q.valuesLength;
      nestedCount := q.nestedCount;
      nestedIndexes := q.nestedIndexes;
    }

    /** The assignments at the end of `UnmarshalJSON`. */
    method Assign(q: Rsql)
      requires Consistent(q)
      modifies this
      ensures Valid() && Value() == q && fresh(fields)
    {
      mode := q.mode;
      fields := NewArray(q.fields);
      values := q.values;
      fieldsLength := q.fieldsLength;
      valuesLength := q.valuesLength;
      nestedCount := q.nestedCount;
      nestedIndexes := q.nestedIndexes;
    }
  }

  class Parser {
    const raw: RawQuery
    var query: Query?

    ghost predicate Valid()
      reads this, query
    {
      query != null ==> query.Valid()
    }

    /** The RSQL that `Query` holds, if any. */
    function State(): Option<Rsql>
      reads this, query, if query != null then {query.fields} else {}
    {
      if query == null then None else Some(query.Value())
    }

    /** `NewRestfulSQLParser`. */
    constructor (raw: RawQuery)
      ensures this.raw == raw && query == null && Valid()
    {
      this.raw := raw;
      query := null;
    }

    /** `Parse`: decode the raw query into `Query`, then check its top-level lengths. */
    method Parse() returns (r: Outcome<Query>)
      requires Valid()
      modifies this, query
      ensures Valid()
      ensures State() == QueryAfterParse(old(State()), raw)
      ensures r.Success? <==> ParseQuery(raw).Success?
      ensures r.Success? ==> r.value == query && query.Value() == ParseQuery(raw).value
      ensures r.Failure? <==> ParseQuery(raw).Failure?
      ensures r.Failure? ==> r.error == ParseQuery(raw).error
    {
      var zero := ZeroRsql;
      assert zero.fields == [] && NestedIndexes(zero.fields) == [];
      match raw
      case Malformed =>
        return Failure(DecodeSyntax);
      case WellFormed(tree) =>
        if tree.Null? {
          query := null;
          return Panic;
        }
        if query == null {
          query := new Query(ZeroRsql);
        }
        if !tree.Arr? {
          return Failure(DecodeType);
        }
        var parsed := UnmarshalToRsql(tree.elems);
        if parsed.Err? {
          return Failure(parsed.error);
        }
        query.Assign(parsed.value);
        var err := CheckLength(query.Value());
        if err.Some? {
          return Failure(err.value);
        }
        return Success(query);
    }

    /** `Compile`: flatten `Query.Fields` in place, then build the top-level string. */
    method Compile() returns (r: Outcome<string>)
      requires Valid()
      modifies if query != null then {query.fields} else {}
      ensures Valid() && query == old(query)
      ensures old(State()).None? ==> r == Panic
      ensures old(State()).Some? ==> (r, query.fields[..]) == Compiled(old(State()).value)
    {
      if query == null {
        return Panic;
      }
      var st := FlattenNestedRsql(query.fields, query.nestedIndexes);
      match st
      case Failed(e) =>
        return Failure(e);
      case Panicked =>
        return Panic;
      case Done =>
        if query.fields.Length > |query.values| {
          return Panic;
        }
        var s := BuildString(query.mode, query.fields[..], query.values);
        return Success(s);
    }
  }
}
