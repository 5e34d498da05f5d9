/*
 * The queries of restfulsql_test.go, stated as lemmas about the model: parsing,
 * nested detection, flattening and compiling give the strings and slices
 * the tests expect. Numbers in the queries decode to float64 in Go and
 * print without a fraction, as Num does here.
 */
module Examples {
  import opened Json
  import opened RestfulSql
  import opened Flattening
  import opened Parsing

  /** `["AND", ["a", "b"], [2, "2"]]` */
  const TwoFields := Arr([Str("AND"), Arr([Str("a"), Str("b")]), Arr([Num(2), Str("2")])])

  /** `["AND", ["b", ["OR", ["c"], [2]]], [2, ""]]` */
  const InnerOr := Arr([Str("OR"), Arr([Str("c")]), Arr([Num(2)])])
  const NestedOnce := Arr([Str("AND"), Arr([Str("b"), InnerOr]), Arr([Num(2), Str("")])])

  /** `["AND", ["a", ["AND", ["b", ["OR", ["c", "d"], [2, 3]]], [2, ""]]], [10, ""]]` */
  const InnerOrTwo := Arr([Str("OR"), Arr([Str("c"), Str("d")]), Arr([Num(2), Num(3)])])
  const MiddleAnd := Arr([Str("AND"), Arr([Str("b"), InnerOrTwo]), Arr([Num(2), Str("")])])
  const ThreeLevels := Arr([Str("AND"), Arr([Str("a"), MiddleAnd]), Arr([Num(10), Str("")])])

  /** Two positions join into two fragments around the separator. */
  lemma RenderedPair(mode: string, f0: JValue, f1: JValue, v0: JValue, v1: JValue)
    ensures Rendered(mode, [f0, f1], [v0, v1]) == Fragment(f0, v0) + Separator(mode) + Fragment(f1, v1)
  {
    var fs, vs := [f0] + [f1], [v0] + [v1];
    assert fs == [f0, f1] && vs == [v0, v1];
    RenderedSnoc(mode, [f0], [v0], f1, v1);
    assert Rendered(mode, [f0], [v0]) == Fragment(f0, v0);
  }

  lemma SmallNumbers()
    ensures FormatNum(2) == "2" && FormatNum(3) == "3" && FormatNum(10) == "10"
  {
    assert NatToString(1) == "1";
  }

  /** The detector on a two-entry fields slice. */
  lemma NestedIndexesPair(x: JValue, y: JValue)
    ensures NestedIndexes([x, y]) == (if IsNested(x) then [0] else []) + (if IsNested(y) then [1] else [])
  {
    var xs, xy := [x], [x, y];
    assert xs[..0] == [] && xs[0] == x;
    assert NestedIndexes(xs) == NestedIndexes(xs[..0]) + (if IsNested(x) then [0] else []);
    assert xy[..1] == xs && xy[1] == y;
    assert NestedIndexes(xy) == NestedIndexes(xs) + (if IsNested(y) then [1] else []);
  }

  /** The detector on a string followed by a nested entry. */
  lemma NestedSecond(a: string, y: JValue)
    requires IsNested(y)
    ensures NestedIndexes([Str(a), y]) == [1]
  {
    NestedIndexesPair(Str(a), y);
  }

  /** The detector on two strings. */
  lemma NestedNeither(a: string, b: string)
    ensures NestedIndexes([Str(a), Str(b)]) == []
  {
    NestedIndexesPair(Str(a), Str(b));
  }

  /** The detector on the fields of the test queries of TestFalttenNestedRSQL, level by level. */
  lemma NestedCounts()
    ensures NestedIndexes([Str("a"), MiddleAnd]) == [1]
    ensures NestedIndexes([Str("b"), InnerOrTwo]) == [1]
    ensures NestedIndexes([Str("c"), Str("d")]) == []
    ensures NestedIndexes([Str("b"), InnerOr]) == [1]
    ensures NestedIndexes([Str("a"), Str("b")]) == []
  {
    assert NestedIndexes([Str("a"), MiddleAnd]) == [1] by {
      assert MiddleAnd.elems[1].Arr?;
      NestedSecond("a", MiddleAnd);
    }
    assert NestedIndexes([Str("b"), InnerOrTwo]) == [1] by {
      assert InnerOrTwo.elems[1].Arr?;
      NestedSecond("b", InnerOrTwo);
    }
    assert NestedIndexes([Str("b"), InnerOr]) == [1] by {
      assert InnerOr.elems[1].Arr?;
      NestedSecond("b", InnerOr);
    }
    NestedNeither("c", "d");
    NestedNeither("a", "b");
  }

  /**
   * The detector on a query triple itself: only its fields slice can be
   * nested, and it is when some field is a slice.
   */
  lemma NestedIndexesOfTriple(mode: string, fields: seq<JValue>, values: seq<JValue>)
    requires !ContainsArray(values)
    ensures NestedIndexes([Str(mode), Arr(fields), Arr(values)]) == if ContainsArray(fields) then [1] else []
  {
    var t := [Str(mode), Arr(fields), Arr(values)];
    assert !IsNested(t[0]) && !IsNested(t[2]);
    assert IsNested(t[1]) == ContainsArray(fields);
    assert t[..2] == [t[0], t[1]];
    assert NestedIndexes(t) == NestedIndexes(t[..2]);
    NestedIndexesPair(t[0], t[1]);
  }

  /**
   * TestNestedSQLCount, on the middle triple `NestedOnce`: the detector on
   * the triple, on its fields, and on the innermost triple finds one, one
   * and no nested entries.
   */
  lemma NestedSqlCount()
    ensures NestedIndexes(NestedOnce.elems) == [1]
    ensures NestedIndexes(NestedOnce.elems[1].elems) == [1]
    ensures NestedIndexes(NestedOnce.elems[1].elems[1].elems) == []
  {
    assert NestedIndexes(NestedOnce.elems) == [1] by {
      var bFields := [Str("b"), InnerOr];
      assert !ContainsArray([Num(2), Str("")]) by {
        NoArrayInPair(Num(2), Str(""));
      }
      assert ContainsArray(bFields) by {
        assert bFields[1].Arr?;
      }
      NestedIndexesOfTriple("AND", bFields, [Num(2), Str("")]);
    }
    assert NestedIndexes(NestedOnce.elems[1].elems) == [1] by {
      assert InnerOr.elems[1].Arr?;
      NestedSecond("b", InnerOr);
    }
    assert NestedIndexes(InnerOr.elems) == [] by {
      NestedIndexesSingleTriple("OR", Str("c"), Num(2));
    }
  }

  lemma NoArrayInPair(x: JValue, y: JValue)
    requires !x.Arr? && !y.Arr?
    ensures !ContainsArray([x, y])
  {
    assert [x, y][1..] == [y] && [y][1..] == [];
  }

  /** The detector on a triple with one field and one value, neither a slice. */
  lemma NestedIndexesSingleTriple(mode: string, f: JValue, v: JValue)
    requires !f.Arr? && !v.Arr?
    ensures NestedIndexes([Str(mode), Arr([f]), Arr([v])]) == []
  {
    assert [f][1..] == [] && [v][1..] == [];
    assert !ContainsArray([f]) && !ContainsArray([v]);
    NestedIndexesOfTriple(mode, [f], [v]);
  }

  // The strings the tests expect, written the way `buildString` assembles
  // them: fragment, separator, fragment.

  const TwoFieldsSql := "(a = 2)" + " AND " + "(b = '2')"
  const OneOrSql := "(c = 2)"
  const TwoOrSql := "(c = 2)" + " OR " + "(d = 3)"
  const NestedOnceSql := "(b = 2)" + " AND " + "(" + OneOrSql + ")"
  const MiddleSql := "(b = 2)" + " AND " + "(" + TwoOrSql + ")"
  const ThreeLevelsSql := "(a = 10)" + " AND " + "(" + MiddleSql + ")"

  /** The fragments of the test queries, and their separators. */
  lemma TestFragments()
    ensures Fragment(Str("a"), Num(2)) == "(a = 2)"
    ensures Fragment(Str("b"), Str("2")) == "(b = '2')"
    ensures Fragment(Str("c"), Num(2)) == "(c = 2)"
    ensures Fragment(Str("d"), Num(3)) == "(d = 3)"
    ensures Fragment(Str("b"), Num(2)) == "(b = 2)"
    ensures Fragment(Str("a"), Num(10)) == "(a = 10)"
    ensures Separator("AND") == " AND " && Separator("OR") == " OR "
  {
    DigitFragments();
    TenFragment();
  }

  lemma DigitFragments()
    ensures Fragment(Str("a"), Num(2)) == "(a = 2)"
    ensures Fragment(Str("c"), Num(2)) == "(c = 2)"
    ensures Fragment(Str("d"), Num(3)) == "(d = 3)"
    ensures Fragment(Str("b"), Num(2)) == "(b = 2)"
  {
  }

  lemma TenFragment()
    ensures Fragment(Str("a"), Num(10)) == "(a = 10)"
  {
    SmallNumbers();
  }

  /** A flattened nested entry (value `""`) prints as its string in parentheses. */
  lemma FlattenedPair(mode: string, head: JValue, v: JValue, inner: string)
    ensures Rendered(mode, [head, Str(inner)], [v, Str("")])
         == Fragment(head, v) + Separator(mode) + "(" + inner + ")"
  {
    RenderedPair(mode, head, Str(inner), v, Str(""));
  }

  lemma RenderTwoFields()
    ensures Rendered("AND", [Str("a"), Str("b")], [Num(2), Str("2")]) == TwoFieldsSql
  {
    RenderedPair("AND", Str("a"), Str("b"), Num(2), Str("2"));
    TestFragments();
  }

  /** TestBuildString, first query: one field gives its fragment alone. */
  lemma RenderSingle()
    ensures Rendered("AND", [Str("a")], [Num(2)]) == "(a = 2)"
  {
    TestFragments();
  }

  lemma RenderOneOr()
    ensures Rendered("OR", [Str("c")], [Num(2)]) == OneOrSql
  {
    TestFragments();
  }

  lemma RenderTwoOr()
    ensures Rendered("OR", [Str("c"), Str("d")], [Num(2), Num(3)]) == TwoOrSql
  {
    RenderedPair("OR", Str("c"), Str("d"), Num(2), Num(3));
    TestFragments();
  }

  lemma RenderAroundOneOr()
    ensures Rendered("AND", [Str("b"), Str(OneOrSql)], [Num(2), Str("")]) == NestedOnceSql
  {
    FlattenedPair("AND", Str("b"), Num(2), OneOrSql);
    TestFragments();
  }

  lemma RenderAroundTwoOr()
    ensures Rendered("AND", [Str("b"), Str(TwoOrSql)], [Num(2), Str("")]) == MiddleSql
  {
    FlattenedPair("AND", Str("b"), Num(2), TwoOrSql);
    TestFragments();
  }

  lemma RenderOutermost()
    ensures Rendered("AND", [Str("a"), Str(MiddleSql)], [Num(10), Str("")]) == ThreeLevelsSql
  {
    FlattenedPair("AND", Str("a"), Num(10), MiddleSql);
    TestFragments();
  }

  /**
   * Flattening index 1 of a two-entry fields slice whose second entry is a
   * triple: once the triple's own fields flatten to `flatSub`, the entry
   * becomes the string built from them, or the length check fails.
   */
  lemma FlattenTripleAtOne(f: seq<JValue>, flatSub: seq<JValue>)
    requires |f| == 2 && f[1].Arr? && |f[1].elems| == 3
    requires f[1].elems[0].Str? && f[1].elems[1].Arr? && f[1].elems[2].Arr?
    requires
      var sub := f[1].elems[1].elems;
      var inner := NestedIndexes(sub);
      (if inner == [] then (Done, sub) else Flattened(sub, inner)) == (Done, flatSub)
    ensures |flatSub| == |f[1].elems[2].elems| ==>
      Flattened(f, [1]) == (Done, [f[0], Str(Rendered(f[1].elems[0].s, flatSub, f[1].elems[2].elems))])
    ensures |flatSub| != |f[1].elems[2].elems| ==>
      Flattened(f, [1]).0 == Failed(NumOfFieldAndValueMismatch)
  {
    FlattenIndexOne(f);
    if |flatSub| == |f[1].elems[2].elems| {
      var built := Str(Rendered(f[1].elems[0].s, flatSub, f[1].elems[2].elems));
      assert f[1 := built] == [f[0], built];
    }
  }

  /** Flattening the fields of the second test query leaves `["b", "(c = 2)"]`. */
  lemma FlattenNestedOnce()
    ensures Flattened([Str("b"), InnerOr], [1]) == (Done, [Str("b"), Str(OneOrSql)])
  {
    NoNestedNoIndexes([Str("c")]);
    RenderOneOr();
    FlattenTripleAtOne([Str("b"), InnerOr], [Str("c")]);
  }
  /** The innermost level of the third test query: `["b", "(c = 2) OR (d = 3)"]`. */
  lemma FlattenMiddle()
    ensures Flattened([Str("b"), InnerOrTwo], [1]) == (Done, [Str("b"), Str(TwoOrSql)])
  {
    NestedCounts();
    RenderTwoOr();
    FlattenTripleAtOne([Str("b"), InnerOrTwo], [Str("c"), Str("d")]);
  }

  /** Flattening the fields of the third test query leaves `["a", "(b = 2) AND ((c = 2) OR (d = 3))"]`. */
  lemma FlattenThreeLevels()
    ensures Flattened([Str("a"), MiddleAnd], [1]) == (Done, [Str("a"), Str(MiddleSql)])
  {
    NestedCounts();
    FlattenMiddle();
    RenderAroundTwoOr();
    FlattenTripleAtOne([Str("a"), MiddleAnd], [Str("b"), Str(TwoOrSql)]);
  }

  lemma CompileTwoFields()
    ensures ParseAndCompile(WellFormed(TwoFields)) == Success(TwoFieldsSql)
  {
    FlatQueryCompiles("AND", [Str("a"), Str("b")], [Num(2), Str("2")]);
    RenderTwoFields();
  }

  lemma CompileNestedOnce()
    ensures ParseAndCompile(WellFormed(NestedOnce)) == Success(NestedOnceSql)
  {
    NestedCounts();
    FlattenNestedOnce();
    NestedQueryCompiles("AND", [Str("b"), InnerOr], [Num(2), Str("")], [Str("b"), Str(OneOrSql)]);
    RenderAroundOneOr();
  }

  lemma CompileThreeLevels()
    ensures ParseAndCompile(WellFormed(ThreeLevels)) == Success(ThreeLevelsSql)
  {
    NestedCounts();
    FlattenThreeLevels();
    NestedQueryCompiles("AND", [Str("a"), MiddleAnd], [Num(10), Str("")], [Str("a"), Str(MiddleSql)]);
    RenderOutermost();
  }

  // Error paths

  /** The first query of TestParse: the values of the middle triple are one short. */
  const MiddleShort := Arr([Str("AND"), Arr([Str("b"), InnerOr]), Arr([Num(2)])])
  const ShortValues := Arr([Str("AND"), Arr([Str("a"), MiddleShort]), Arr([Num(10), Str("")])])

  /** `Parse` checks only the top level: the query parses, with its fields and values as written. */
  lemma ParseShortValues()
    ensures ParseQuery(WellFormed(ShortValues))
         == Success(Rsql("AND", [Str("a"), MiddleShort], [Num(10), Str("")], 2, 2, 1, [1]))
  {
    assert MiddleShort.elems[1].Arr? && IsNested(MiddleShort);
    NestedIndexesPair(Str("a"), MiddleShort);
    assert NestedIndexes([Str("a"), MiddleShort]) == [1];
    ParseTriple("AND", [Str("a"), MiddleShort], [Num(10), Str("")]);
  }

  /** ... and `Compile` reports the mismatch once the innermost triple is flattened. */
  lemma CompileShortValues()
    ensures ParseAndCompile(WellFormed(ShortValues)) == Failure(NumOfFieldAndValueMismatch)
  {
    var f := [Str("a"), MiddleShort];
    ParseShortValues();
    NestedCounts();
    FlattenNestedOnce();
    FlattenTripleAtOne(f, [Str("b"), Str(OneOrSql)]);
    NestedQueryFails("AND", f, [Num(10), Str("")]);
  }

  /**
   * A nested entry at index 0: the flatten reads the triple from index 1,
   * which holds the string `"b"`, and the type assertion panics.
   */
  const NestedFirst := Arr([Str("AND"), Arr([InnerOr, Str("b")]), Arr([Str(""), Num(2)])])

  lemma CompileNestedFirst()
    ensures ParseQuery(WellFormed(NestedFirst)).Success?
    ensures ParseAndCompile(WellFormed(NestedFirst)) == Panic
  {
    var f := [InnerOr, Str("b")];
    assert InnerOr.elems[1].Arr? && IsNested(InnerOr);
    NestedIndexesPair(InnerOr, Str("b"));
    assert Flattened(f, [0]).0 == Panicked;
    NestedQueryFails("AND", f, [Str(""), Num(2)]);
  }

  /** Shapes other than `[string, array, array]` are rejected before any length check. */
  lemma ParseBadShapes()
    ensures ParseQuery(WellFormed(Arr([Str("AND"), Arr([Str("a")])]))) == Failure(InvalidRestfulSQL)
    ensures ParseQuery(WellFormed(Arr([Num(1), Arr([Str("a")]), Arr([Num(2)])]))) == Failure(InvalidRestfulSQL)
    ensures ParseQuery(WellFormed(Arr([Str("AND"), Arr([Str("a"), Str("b")]), Arr([Num(2)])])))
         == Failure(NumOfFieldAndValueMismatch)
    ensures ParseQuery(WellFormed(Str("AND"))) == Failure(DecodeType)
    ensures ParseQuery(Malformed) == Failure(DecodeSyntax)
  {
  }

  /** TestContainsType: `["a", ["b", ["c"]]]` holds a slice. */
  lemma ContainsTypeExample()
    ensures ContainsArray([Str("a"), Arr([Str("b"), Arr([Str("c")])])])
  {
    var es := [Str("a"), Arr([Str("b"), Arr([Str("c")])])];
    assert es[1].Arr?;
  }

  /** TestFalttenNestedRSQL, first query: no nested entries, nothing to do. */
  lemma FlattenFlatQuery()
    ensures NestedIndexes([Str("a"), Str("b")]) == []
    ensures Flattened([Str("a"), Str("b")], []) == (Done, [Str("a"), Str("b")])
  {
    NestedCounts();
  }
}
