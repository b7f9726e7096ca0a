/** The last lines of `postprocess`: the timestamp column first, then the id
    columns, then every other column in the order the frame had them. */
module Reordering {
  import opened Values
  import opened Frames
  import opened Assembling

  /** `[c for c in cols if c not in drop]`. */
  function Without(cols: seq<string>, drop: seq<string>): (r: seq<string>)
    ensures forall c :: c in r <==> c in cols && c !in drop
    ensures |r| <= |cols|
  {
    if cols == [] then []
    else
      var last := cols[|cols| - 1];
      Without(cols[..|cols| - 1], drop) + (if last in drop then [] else [last])
  }

  /** `cols_ordered`: the timestamp column, the id columns, then the rest of `cols`. */
  function Ordered(cols: seq<string>, ts: Option<string>, ids: seq<string>): seq<string>
  {
    Prefix(ts, ids) + Without(cols, Prefix(ts, ids))
  }

  /** Filtering a concatenation filters each part. */
  lemma {:induction false} WithoutConcat(a: seq<string>, b: seq<string>, drop: seq<string>)
    ensures Without(a + b, drop) == Without(a, drop) + Without(b, drop)
  {
    if b != [] {
      var init := b[..|b| - 1];
      assert (a + b)[..|a + b| - 1] == a + init;
      WithoutConcat(a, init, drop);
    } else {
      assert a + b == a;
    }
  }

  /** The columns that stay keep their relative order: two kept columns `x` and
      `y`, `x` before `y`, come out with `x` before `y` and nothing of `drop`
      between them. */
  lemma WithoutKeepsOrder(before: seq<string>, x: string, between: seq<string>, y: string, after: seq<string>,
                          drop: seq<string>)
    requires x !in drop && y !in drop
    ensures Without(before + [x] + between + [y] + after, drop) ==
      Without(before, drop) + [x] + Without(between, drop) + [y] + Without(after, drop)
  {
    WithoutConcat(before + [x] + between + [y], after, drop);
    WithoutConcat(before + [x] + between, [y], drop);
    WithoutConcat(before + [x], between, drop);
    WithoutConcat(before, [x], drop);
    assert Without([x], drop) == [x] by {
      assert [x][..0] == [];
    }
    assert Without([y], drop) == [y] by {
      assert [y][..0] == [];
    }
  }

  /** A filtered list of distinct names has distinct names. */
  lemma {:induction false} WithoutDistinct(cols: seq<string>, drop: seq<string>)
    requires Distinct(cols)
    ensures Distinct(Without(cols, drop))
  {
    if cols != [] {
      var init := cols[..|cols| - 1];
      var last := cols[|cols| - 1];
      WithoutDistinct(init, drop);
      assert Without(cols, drop) == Without(init, drop) + (if last in drop then [] else [last]);
      if last !in drop {
        assert last !in init;
        DistinctAppend(Without(init, drop), last);
      } else {
        assert Without(init, drop) + [] == Without(init, drop);
      }
    }
  }

  /** The final column list: the timestamp and the id columns lead, in the given
      order; the rest are the other columns in their order (`Without`, whose
      `WithoutKeepsOrder` says kept columns keep their relative order), none of
      the leading ones repeated; no
      column is added or lost when the leading ones are columns; and with
      distinct names the list is free of repeats. */
  lemma OrderedColumns(cols: seq<string>, ts: Option<string>, ids: seq<string>)
    ensures var p := Prefix(ts, ids); var r := Ordered(cols, ts, ids);
      && |p| <= |r| && r[..|p|] == p
      && r[|p|..] == Without(cols, p)
      && (forall c :: c in r[|p|..] <==> c in cols && c !in p)
      && ((forall c :: c in p ==> c in cols) ==> forall c :: c in r <==> c in cols)
      && (Distinct(cols) && Distinct(p) ==> Distinct(r))
  {
    var p := Prefix(ts, ids);
    var r := Ordered(cols, ts, ids);
    assert r[..|p|] == p && r[|p|..] == Without(cols, p);
    if Distinct(cols) && Distinct(p) {
      WithoutDistinct(cols, p);
      DistinctConcat(p, Without(cols, p));
    }
  }

  /** `cols_ordered` built step by step: the timestamp column appended, the id
      columns and then the remaining columns extended. */
  method ReorderColumns(cols: seq<string>, ts: Option<string>, ids: seq<string>) returns (ordered: seq<string>)
    ensures ordered == Ordered(cols, ts, ids)
  {
    ordered := [];
    if ts.Some? {
      ordered := ordered + [ts.value];
    }
    ordered := ordered + ids;
    assert ordered == Prefix(ts, ids);
    ordered := ordered + Without(cols, ordered);
  }

  /** Every name of the reordered list is a column of the frame when the leading
      ones are. */
  lemma OrderedSelectable(f: Frame, ts: Option<string>, ids: seq<string>)
    requires WellFormed(f)
    requires forall c :: c in Prefix(ts, ids) ==> c in f.cells
    ensures forall c :: c in Ordered(f.columns, ts, ids) ==> c in f.cells
  {
  }
}
