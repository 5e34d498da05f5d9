/*
 * `falttenNestedRSQL` (restfulsql.go:187-213): the in-place, bottom-up
 * flattening of nested RSQL entries of a fields slice.
 *
 * For each nested index `v` the source reads the nested triple from
 * `fieldsSlice[1]` (index 1, whatever `v` is), flattens that triple's own
 * entry `v` in place when it has nested entries of its own, re-validates the
 * triple, builds its string and stores it in `fieldsSlice[v]`. All of this
 * is modelled as written, including the runtime panics it can run into.
 *
 * `Flattened` / `FlatteningStep` specify the effect on a slice's contents;
 * `FlattenNestedRsql` / `FlattenAt` do it in place on an array.
 */
module Flattening {
  import opened Json
  import opened RestfulSql

  /** The `error` result of `falttenNestedRSQL`, or a Go runtime panic. */
  datatype Status = Done | Failed(error: Error) | Panicked

  /**
   * Lines 199-209 for index `v`, once `targeting` (the contents of
   * `fieldsSlice[1]`, after any in-place flattening of its entry `v`) is
   * known: the slot `fieldsSlice[1]` shows `targeting`; it must be a valid
   * triple with matching lengths; its string is written to `fieldsSlice[v]`.
   */
  function StoreNested(f: seq<JValue>, v: nat, targeting: seq<JValue>): (r: (Status, seq<JValue>))
    requires |f| >= 2 && Depth(Arr(targeting)) <= Depth(f[1])
    ensures |r.1| == |f| && DepthSeq(r.1) <= DepthSeq(f)
    ensures forall i :: 0 <= i < |f| && i != 1 && i != v ==> r.1[i] == f[i]
    ensures v != 1 ==> r.1[1] == Arr(targeting)
    ensures r.0 == Done ==> v < |f| && r.1[v].Str?
  {
    var g := f[1 := Arr(targeting)];
    DepthSeqUpdate(f, 1, Arr(targeting));
    match UnmarshalToRsql(targeting)
    case Err(e) => (Failed(e), g)
    case Ok(q) =>
      match CheckLength(q)
      case Some(e) => (Failed(e), g)
      case None =>
        if v < |g| then
          var built := Str(Rendered(q.mode, q.fields, q.values));
          DepthSeqUpdate(g, v, built);
          (Done, g[v := built])
        else (Panicked, g)
  }

  /** One iteration of the loop of `falttenNestedRSQL`, for the nested index `v`. */
  function FlatteningStep(f: seq<JValue>, v: nat): (r: (Status, seq<JValue>))
    decreases DepthSeq(f), 0, 0
    ensures |r.1| == |f| && DepthSeq(r.1) <= DepthSeq(f)
  {
    if |f| < 2 || !f[1].Arr? || v >= |f[1].elems| then (Panicked, f)
    else
      var targeting := f[1].elems;
      var target := targeting[v];
      if target.Str? then StoreNested(f, v, targeting)
      else if !target.Arr? then (Panicked, f)
      else
        var inner := NestedIndexes(target.elems);
        if |inner| == 0 then StoreNested(f, v, targeting)
        else
          DepthSeqElement(f, 1);
          DepthSeqElement(targeting, v);
          var sub := Flattened(target.elems, inner);
          DepthSeqUpdate(targeting, v, Arr(sub.1));
          var updated := targeting[v := Arr(sub.1)];
          if sub.0 != Done then
            DepthSeqUpdate(f, 1, Arr(updated));
            (sub.0, f[1 := Arr(updated)])
          else StoreNested(f, v, updated)
  }

  /** `falttenNestedRSQL(f, indexes)`: the steps in order, stopping at the first that does not succeed. */
  function Flattened(f: seq<JValue>, indexes: seq<nat>): (r: (Status, seq<JValue>))
    decreases DepthSeq(f), 1, |indexes|
    ensures |r.1| == |f| && DepthSeq(r.1) <= DepthSeq(f)
  {
    if indexes == [] then (Done, f)
    else
      var step := FlatteningStep(f, indexes[0]);
      if step.0 != Done then step else Flattened(step.1, indexes[1..])
  }

  /** One iteration of the loop, in place. */
  method FlattenAt(fields: array<JValue>, v: nat) returns (st: Status)
    modifies fields
    decreases DepthSeq(fields[..]), 1
    ensures (st, fields[..]) == FlatteningStep(old(fields[..]), v)
  {
    if fields.Length < 2 || !fields[1].Arr? || v >= |fields[1].elems| {
      return Panicked;
    }
    ghost var f := fields[..];
    var target := fields[1].elems[v];
    if !target.Str? && !target.Arr? {
      return Panicked;
    }
    if target.Arr? {
      var count, inner := FindNestedRsql(target.elems);
      if count > 0 {
        st := FlattenEntry(fields, v, inner);
        if st != Done {
          return;
        }
      }
    }
    var targeting := fields[1].elems;
    assert fields[..] == f[1 := Arr(targeting)];
    assert f[1 := Arr(targeting)][1 := Arr(targeting)] == f[1 := Arr(targeting)];
    st := StoreAt(fields, v, targeting);
  }

  /**
   * Lines 191-197: entry `v` of the nested triple in `fields[1]` is its own
   * slice; it is flattened in place, and `fields[1]` sees the result
   * through the alias.
   */
  method FlattenEntry(fields: array<JValue>, v: nat, inner: seq<nat>) returns (st: Status)
    requires fields.Length >= 2 && fields[1].Arr? && v < |fields[1].elems| && fields[1].elems[v].Arr?
    requires inner == NestedIndexes(fields[1].elems[v].elems)
    modifies fields
    decreases DepthSeq(fields[..]), 0
    ensures var sub := Flattened(old(fields[1].elems[v].elems), inner);
      st == sub.0 && fields[..] == old(fields[..])[1 := Arr(old(fields[1].elems)[v := Arr(sub.1)])]
  {
    ghost var f := fields[..];
    var targeting := fields[1].elems;
    var entry := targeting[v].elems;
    var sub := NewArray(entry);
    DepthSeqElement(f, 1);
    DepthSeqElement(targeting, v);
    assert DepthSeq(sub[..]) < DepthSeq(f);
    st := FlattenNestedRsql(sub, inner);
    ghost var flattened := Flattened(entry, inner);
    assert st == flattened.0 && sub[..] == flattened.1;
    fields[1] := Arr(targeting[v := Arr(sub[..])]);
    assert fields[..] == f[1 := Arr(targeting[v := Arr(flattened.1)])];
  }

  /** A fresh array holding `s`: the backing store of a decoded slice. */
  method NewArray(s: seq<JValue>) returns (a: array<JValue>)
    ensures fresh(a) && a[..] == s
  {
    a := new JValue[|s|](i requires 0 <= i < |s| => s[i]);
  }

  /** Lines 199-209 in place: `fields[1]` already holds `targeting`. */
  method StoreAt(fields: array<JValue>, v: nat, targeting: seq<JValue>) returns (st: Status)
    requires fields.Length >= 2 && fields[1] == Arr(targeting)
    modifies fields
    ensures (st, fields[..]) == StoreNested(old(fields[..]), v, targeting)
  {
    assert old(fields[..])[1 := Arr(targeting)] == old(fields[..]);
    var rsql := UnmarshalToRsql(targeting);
    if rsql.Err? {
      return Failed(rsql.error);
    }
    var err := CheckLength(rsql.value);
    if err.Some? {
      return Failed(err.value);
    }
    var s := BuildString(rsql.value.mode, rsql.value.fields, rsql.value.values);
    if v >= fields.Length {
      return Panicked;
    }
    fields[v] := Str(s);
    return Done;
  }

  /** `falttenNestedRSQL`: flatten the nested entries at `indexes` of `fields`, in place. */
  method FlattenNestedRsql(fields: array<JValue>, indexes: seq<nat>) returns (st: Status)
    modifies fields
    decreases DepthSeq(fields[..]), 2
    ensures (st, fields[..]) == Flattened(old(fields[..]), indexes)
  {
    for k := 0 to |indexes|
      invariant Flattened(fields[..], indexes[k..]) == Flattened(old(fields[..]), indexes)
      invariant DepthSeq(fields[..]) <= DepthSeq(old(fields[..]))
    {
      assert indexes[k..][1..] == indexes[k + 1..];
      st := FlattenAt(fields, indexes[k]);
      if st != Done {
        return;
      }
    }
    return Done;
  }

  // ---------------------------------------------------------------------
  // Properties of flattening
  // ---------------------------------------------------------------------

  /** A slice without nested entries has no indexes, and flattening it changes nothing. */
  lemma FlatInputUnchanged(f: seq<JValue>)
    requires forall i :: 0 <= i < |f| ==> !IsNested(f[i])
    ensures NestedIndexes(f) == []
    ensures Flattened(f, NestedIndexes(f)) == (Done, f)
  {
    NoNestedNoIndexes(f);
  }

  /**
   * One step touches only slot 1 and slot `v`; a successful step leaves a
   * string in slot `v`; slot 1 is untouched when it is not nested and `v`
   * is another index.
   */
  lemma StepFrame(f: seq<JValue>, v: nat)
    ensures var r := FlatteningStep(f, v);
      forall i :: 0 <= i < |f| && i != 1 && i != v ==> r.1[i] == f[i]
    ensures var r := FlatteningStep(f, v);
      r.0 == Done ==> v < |f| && r.1[v].Str?
    ensures var r := FlatteningStep(f, v);
      |f| >= 2 && v != 1 && !IsNested(f[1]) ==> r.1[1] == f[1]
    ensures |f| < 2 || !f[1].Arr? ==> FlatteningStep(f, v).0 == Panicked
  {
    if |f| >= 2 && f[1].Arr? && v < |f[1].elems| {
      var targeting := f[1].elems;
      if targeting[v].Arr? {
        assert IsNested(f[1]);
      }
    }
  }

  /**
   * What a whole run of the loop changes: slots other than 1 that are not
   * in `indexes` keep their entries; after success every index in
   * `indexes` holds a string; slot 1 keeps its entry when it is neither
   * nested nor listed; and a run over any index panics when slot 1 is
   * missing or is not an array.
   */
  lemma {:induction false} FlattenFrame(f: seq<JValue>, indexes: seq<nat>)
    ensures var r := Flattened(f, indexes);
      forall i :: 0 <= i < |f| && i != 1 && i !in indexes ==> r.1[i] == f[i]
    ensures var r := Flattened(f, indexes);
      r.0 == Done ==> forall k :: 0 <= k < |indexes| ==> indexes[k] < |f| && r.1[indexes[k]].Str?
    ensures var r := Flattened(f, indexes);
      |f| >= 2 && 1 !in indexes && !IsNested(f[1]) ==> r.1[1] == f[1]
    ensures indexes != [] && (|f| < 2 || !f[1].Arr?) ==> Flattened(f, indexes).0 == Panicked
    decreases |indexes|
  {
    if indexes != [] {
      var v, rest := indexes[0], indexes[1..];
      var step := FlatteningStep(f, v);
      StepFrame(f, v);
      if step.0 == Done {
        var g := step.1;
        FlattenFrame(g, rest);
        var r := Flattened(g, rest);
        assert Flattened(f, indexes) == r;
        forall i | 0 <= i < |f| && i != 1 && i !in indexes
          ensures r.1[i] == f[i]
        {
          assert i != v && i !in rest;
        }
        if r.0 == Done {
          forall k | 0 <= k < |indexes|
            ensures indexes[k] < |f| && r.1[indexes[k]].Str?
          {
            if k > 0 {
              assert indexes[k] == rest[k - 1];
            } else if v !in rest && v != 1 {
              assert r.1[v] == g[v];
            } else if v !in rest {
              assert rest == [];
            } else {
              var j :| 0 <= j < |rest| && rest[j] == v;
            }
          }
        }
        if |f| >= 2 && 1 !in indexes && !IsNested(f[1]) {
          assert v != 1 && 1 !in rest;
        }
      }
    }
  }

  /**
   * At the top level, where the indexes are the slice's own nested
   * entries, a successful flatten leaves no nested entry behind: the final
   * join only ever sees flat fields.
   */
  lemma FlattenLeavesNoNested(f: seq<JValue>)
    ensures var r := Flattened(f, NestedIndexes(f));
      r.0 == Done ==> NestedIndexes(r.1) == []
  {
    var indexes := NestedIndexes(f);
    var r := Flattened(f, indexes);
    FlattenFrame(f, indexes);
    if r.0 == Done {
      forall i | 0 <= i < |r.1|
        ensures !IsNested(r.1[i])
      {
        if i in indexes {
          var k :| 0 <= k < |indexes| && indexes[k] == i;
        }
      }
      FlatInputUnchanged(r.1);
    }
  }

  /**
   * The nested entry at index 1, `[mode, sub, values]`: its own nested
   * entries are flattened first, in place; then the triple is validated
   * and slot 1 becomes the triple's string, with every other slot kept.
   * Any failure of the inner flatten, the shape check or the length check
   * is the result, and the in-place write into `sub` stays visible.
   */
  lemma FlattenIndexOne(f: seq<JValue>)
    requires |f| >= 2 && f[1].Arr? && |f[1].elems| >= 2 && f[1].elems[1].Arr?
    ensures
      var t := f[1].elems;
      var sub := t[1].elems;
      var inner := NestedIndexes(sub);
      var child := if inner == [] then (Done, sub) else Flattened(sub, inner);
      var r := Flattened(f, [1]);
      && (child.0 != Done ==> r == (child.0, f[1 := Arr(t[1 := Arr(child.1)])]))
      && (child.0 == Done && !(|t| == 3 && t[0].Str? && t[2].Arr?) ==>
            r == (Failed(InvalidRestfulSQL), f[1 := Arr(t[1 := Arr(child.1)])]))
      && (child.0 == Done && |t| == 3 && t[0].Str? && t[2].Arr? && |child.1| != |t[2].elems| ==>
            r == (Failed(NumOfFieldAndValueMismatch), f[1 := Arr(t[1 := Arr(child.1)])]))
      && (child.0 == Done && |t| == 3 && t[0].Str? && t[2].Arr? && |child.1| == |t[2].elems| ==>
            r == (Done, f[1 := Str(Rendered(t[0].s, child.1, t[2].elems))]))
  {
    var t := f[1].elems;
    var sub := t[1].elems;
    assert t[1 := Arr(sub)] == t;
    assert [1][1..] == [];
    var inner := NestedIndexes(sub);
    var child := if inner == [] then (Done, sub) else Flattened(sub, inner);
    if child.0 == Done && |t| == 3 && t[0].Str? && t[2].Arr? && |child.1| == |t[2].elems| {
      var built := Str(Rendered(t[0].s, child.1, t[2].elems));
      assert f[1 := Arr(t[1 := Arr(child.1)])][1 := built] == f[1 := built];
    }
  }
}
