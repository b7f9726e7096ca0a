/** Python dicts with their insertion order, and pandas frames built from them:
    the two containers the pipeline fills and reshapes. */
module Frames {
  import opened Values

  /** No name occurs twice: each name is new when it is appended. */
  predicate Distinct(s: seq<string>)
  {
    s == [] || (Distinct(s[..|s| - 1]) && s[|s| - 1] !in s[..|s| - 1])
  }

  lemma DistinctAppend(s: seq<string>, x: string)
    requires Distinct(s) && x !in s
    ensures Distinct(s + [x])
  {
    assert (s + [x])[..|s|] == s;
  }

  /** A dict with string keys: `keys` lists them in insertion order. */
  datatype Dict<V> = Dict(keys: seq<string>, entries: map<string, V>)

  predicate ValidDict<V>(d: Dict<V>)
  {
    && Distinct(d.keys)
    && (forall k :: k in d.entries ==> k in d.keys)
    && (forall k :: k in d.keys ==> k in d.entries)
  }

  function EmptyDict<V>(): (d: Dict<V>)
    ensures ValidDict(d) && d.keys == []
  {
    Dict([], map[])
  }

  /** `d[k] = v`: a new key goes to the end, a present key keeps its place. */
  function Put<V>(d: Dict<V>, k: string, v: V): (r: Dict<V>)
    requires ValidDict(d)
    ensures ValidDict(r)
    ensures r.entries == d.entries[k := v]
    ensures k in d.entries ==> r.keys == d.keys
    ensures k !in d.entries ==> r.keys == d.keys + [k]
  {
    if k in d.entries then Dict(d.keys, d.entries[k := v])
    else
      DistinctAppend(d.keys, k);
      Dict(d.keys + [k], d.entries[k := v])
  }

  /** The keys a sequence of assignments writes, in order. */
  function Names<V>(s: seq<(string, V)>): (ns: seq<string>)
    ensures |ns| == |s|
    ensures forall j :: 0 <= j < |s| ==> ns[j] == s[j].0
  {
    seq(|s|, j requires 0 <= j < |s| => s[j].0)
  }

  /** `ks` followed by every name of `ns` it has not seen yet, in first-seen order. */
  function AppendNew(ks: seq<string>, ns: seq<string>): (r: seq<string>)
    requires Distinct(ks)
    ensures Distinct(r)
    ensures forall x :: x in r <==> x in ks || x in ns
  {
    if ns == [] then ks
    else
      var init := AppendNew(ks, ns[..|ns| - 1]);
      var x := ns[|ns| - 1];
      assert ns == ns[..|ns| - 1] + [x];
      if x in init then init
      else
        DistinctAppend(init, x);
        init + [x]
  }

  /** With no name seen twice, the keys are simply `ks` followed by `ns`. */
  lemma {:induction false} AppendNewFresh(ks: seq<string>, ns: seq<string>)
    requires Distinct(ks + ns)
    ensures Distinct(ks) && AppendNew(ks, ns) == ks + ns
  {
    if ns == [] {
      assert ks + ns == ks;
    } else {
      var init := ns[..|ns| - 1];
      var x := ns[|ns| - 1];
      assert ks + ns == (ks + init) + [x];
      assert Distinct(ks + init) && x !in ks + init by {
        assert (ks + ns)[..|ks + ns| - 1] == ks + init;
      }
      AppendNewFresh(ks, init);
      assert AppendNew(ks, ns) == AppendNew(ks, init) + [x];
    }
  }

  /** The dict after performing the assignments `s` in order. */
  function PutAll<V>(d: Dict<V>, s: seq<(string, V)>): (r: Dict<V>)
    requires ValidDict(d)
    ensures ValidDict(r)
    ensures r.keys == AppendNew(d.keys, Names(s))
  {
    if s == [] then d
    else
      assert Names(s[..|s| - 1]) == Names(s)[..|s| - 1];
      Put(PutAll(d, s[..|s| - 1]), s[|s| - 1].0, s[|s| - 1].1)
  }

  /** A key holds the value of the last assignment to it. */
  lemma {:induction false} PutAllLastWrite<V>(d: Dict<V>, s: seq<(string, V)>, j: nat)
    requires ValidDict(d)
    requires j < |s|
    requires forall i :: j < i < |s| ==> s[i].0 != s[j].0
    ensures s[j].0 in PutAll(d, s).entries && PutAll(d, s).entries[s[j].0] == s[j].1
  {
    if j < |s| - 1 {
      PutAllLastWrite(d, s[..|s| - 1], j);
    }
  }

  /** A key that no later assignment writes holds the value assigned to it. */
  lemma PutAllLastName<V>(d: Dict<V>, s: seq<(string, V)>, j: nat)
    requires ValidDict(d) && j < |s| && Names(s)[j] !in Names(s)[j + 1..]
    ensures s[j].0 in PutAll(d, s).entries && PutAll(d, s).entries[s[j].0] == s[j].1
  {
    forall i | j < i < |s|
      ensures s[i].0 != s[j].0
    {
      assert Names(s)[j + 1..][i - j - 1] == s[i].0;
    }
    PutAllLastWrite(d, s, j);
  }

  /** A write in the middle of a run of writes, whose name no later write
      reuses, is what the dict holds. */
  lemma PutAllMiddle<V>(d: Dict<V>, a: seq<(string, V)>, b: seq<(string, V)>, c: seq<(string, V)>, i: nat)
    requires ValidDict(d) && i < |b| && Names(b)[i] !in Names(b)[i + 1..] + Names(c)
    ensures b[i].0 in PutAll(d, a + b + c).entries && PutAll(d, a + b + c).entries[b[i].0] == b[i].1
  {
    var s := a + b + c;
    var j := |a| + i;
    assert s[j] == b[i];
    NamesConcat(a + b, c);
    NamesConcat(a, b);
    assert Names(s)[j + 1..] == Names(b)[i + 1..] + Names(c);
    PutAllLastName(d, s, j);
  }

  /** The ways the entry lemmas group four runs of writes. */
  lemma Regroup<T>(a: seq<T>, b: seq<T>, c: seq<T>, d: seq<T>)
    ensures a + b + c + d == [] + a + (b + (c + d))
    ensures a + b + c + d == a + b + (c + d)
    ensures a + b + c + d == a + b + c + d + []
  {
  }

  /** Performing `s + t` is performing `s`, then `t`. */
  lemma {:induction false} PutAllAppend<V>(d: Dict<V>, s: seq<(string, V)>, t: seq<(string, V)>)
    requires ValidDict(d)
    ensures PutAll(d, s + t) == PutAll(PutAll(d, s), t)
  {
    if t == [] {
      assert s + t == s;
    } else {
      var init := t[..|t| - 1];
      assert (s + t)[..|s + t| - 1] == s + init;
      PutAllAppend(d, s, init);
    }
  }

  lemma NamesConcat<V>(s: seq<(string, V)>, t: seq<(string, V)>)
    ensures Names(s + t) == Names(s) + Names(t)
  {
  }

  lemma {:induction false} DistinctConcat(a: seq<string>, b: seq<string>)
    requires Distinct(a) && Distinct(b)
    requires forall x :: x in a ==> x !in b
    ensures Distinct(a + b)
  {
    if b == [] {
      assert a + b == a;
    } else {
      var init := b[..|b| - 1];
      assert forall x :: x in init ==> x in b;
      DistinctConcat(a, init);
      assert a + b == (a + init) + [b[|b| - 1]];
      DistinctAppend(a + init, b[|b| - 1]);
    }
  }

  /** What a dict holds under one key: a list becomes a column, anything else is a
      scalar that pandas broadcasts over the rows. */
  datatype Entry = Column(cells: seq<Value>) | Scalar(value: Value)

  function EntryOf(v: Value): Entry
  {
    if v.List? then Column(v.items) else Scalar(v)
  }

  function Broadcast(e: Entry, n: nat): seq<Value>
  {
    match e
    case Column(cells) => cells
    case Scalar(v) => Repeat(v, n)
  }

  /** A pandas frame: ordered column names, the cells of each column, and the
      number of rows. */
  datatype Frame = Frame(columns: seq<string>, cells: map<string, seq<Value>>, height: nat)

  predicate WellFormed(f: Frame)
  {
    && (forall c :: c in f.cells ==> c in f.columns)
    && (forall c :: c in f.columns ==> c in f.cells)
    && (forall c :: c in f.cells ==> |f.cells[c]| == f.height)
  }

  /** A frame whose column names are unique, as read from a file or given by a caller. */
  type Table = f: Frame | WellFormed(f) && Distinct(f.columns) witness Frame([], map[], 0)

  /** The length of the first column-valued entry, in key order. */
  function FirstColumnLength(keys: seq<string>, entries: map<string, Entry>): (r: Option<nat>)
    requires forall k :: k in keys ==> k in entries
    ensures r.None? <==> forall k :: k in keys ==> entries[k].Scalar?
    ensures r.Some? ==> exists k :: k in keys && entries[k].Column? && |entries[k].cells| == r.value
  {
    if keys == [] then None
    else if entries[keys[0]].Column? then Some(|entries[keys[0]].cells|)
    else FirstColumnLength(keys[1..], entries)
  }

  /** Every column-valued entry of `d` holds `n` cells. */
  predicate ColumnsOfLength(d: Dict<Entry>, n: nat)
  {
    forall k :: k in d.entries && d.entries[k].Column? ==> |d.entries[k].cells| == n
  }

  /** `pd.DataFrame(d)`: list-valued entries become columns and must share one
      length, scalars are broadcast to it, and a dict of scalars alone is refused. */
  function FrameOf(d: Dict<Entry>): (r: Result<Frame>)
    requires ValidDict(d)
    ensures d.keys == [] ==> r == Ok(Frame([], map[], 0))
    ensures d.keys != [] && (forall k :: k in d.entries ==> d.entries[k].Scalar?) ==> r == Err(ScalarsWithoutIndex)
    ensures r.Err? ==>
      || (r.error == ScalarsWithoutIndex && d.keys != [] && forall k :: k in d.entries ==> d.entries[k].Scalar?)
      || (r.error == LengthMismatch &&
          exists k, k' :: k in d.entries && k' in d.entries && d.entries[k].Column? && d.entries[k'].Column? &&
            |d.entries[k].cells| != |d.entries[k'].cells|)
    ensures r.Ok? ==> WellFormed(r.value) && r.value.columns == d.keys
    ensures r.Ok? ==> forall k :: k in d.entries ==> r.value.cells[k] == Broadcast(d.entries[k], r.value.height)
  {
    if d.keys == [] then Ok(Frame([], map[], 0))
    else match FirstColumnLength(d.keys, d.entries)
      case None => Err(ScalarsWithoutIndex)
      case Some(n) =>
        if ColumnsOfLength(d, n) then Ok(Frame(d.keys, map k | k in d.entries :: Broadcast(d.entries[k], n), n))
        else Err(LengthMismatch)
  }

  /** `pd.concat((base, future), axis=0)` where every future column is a base
      column: the base rows, then the future rows, NaN where the future has no cell. */
  function ConcatRows(base: Table, future: Table): (r: Table)
    requires forall c :: c in future.columns ==> c in base.columns
    ensures r.columns == base.columns
    ensures r.height == base.height + future.height
    ensures forall c :: c in r.cells ==> c in base.cells && r.cells[c][..base.height] == base.cells[c]
    ensures forall c :: c in future.cells ==> c in r.cells && r.cells[c][base.height..] == future.cells[c]
    ensures forall c :: c in r.cells && c !in future.cells ==> r.cells[c][base.height..] == Repeat(Missing, future.height)
  {
    Frame(
      base.columns,
      map c | c in base.cells :: base.cells[c] + (if c in future.cells then future.cells[c] else Repeat(Missing, future.height)),
      base.height + future.height)
  }

  /** Frames that `pd.concat` stacks without adding columns: all share one column list. */
  predicate Aligned(pieces: seq<Frame>)
  {
    forall j :: 0 <= j < |pieces| ==> WellFormed(pieces[j]) && pieces[j].columns == pieces[0].columns
  }

  function Heights(pieces: seq<Frame>): (r: seq<nat>)
    ensures |r| == |pieces|
    ensures forall j :: 0 <= j < |pieces| ==> r[j] == pieces[j].height
  {
    seq(|pieces|, j requires 0 <= j < |pieces| => pieces[j].height)
  }

  /** Column `c` of each piece, in order. */
  function ColumnOf(pieces: seq<Frame>, c: string): (r: seq<seq<Value>>)
    requires forall j :: 0 <= j < |pieces| ==> c in pieces[j].cells
    ensures |r| == |pieces|
    ensures forall j :: 0 <= j < |pieces| ==> r[j] == pieces[j].cells[c]
  {
    seq(|pieces|, j requires 0 <= j < |pieces| && c in pieces[j].cells => pieces[j].cells[c])
  }

  lemma ConcatHeight(pieces: seq<Frame>, c: string)
    requires Aligned(pieces) && |pieces| > 0 && c in pieces[0].cells
    ensures forall j :: 0 <= j < |pieces| ==> c in pieces[j].cells
    ensures |Flatten(ColumnOf(pieces, c))| == Sum(Heights(pieces))
  {
    FlattenLength(ColumnOf(pieces, c));
    assert Lengths(ColumnOf(pieces, c)) == Heights(pieces);
  }

  /** `pd.concat(pieces)` of frames with one column list: the rows of each piece,
      piece after piece; no pieces at all is refused. */
  function ConcatFrames(pieces: seq<Frame>): (r: Result<Frame>)
    requires Aligned(pieces)
    ensures r.Err? <==> pieces == []
    ensures r.Err? ==> r.error == NothingToConcatenate
    ensures r.Ok? ==> WellFormed(r.value) && r.value.columns == pieces[0].columns
    ensures r.Ok? ==> r.value.height == Sum(Heights(pieces))
    ensures r.Ok? ==> forall c :: c in r.value.cells ==>
      (forall j :: 0 <= j < |pieces| ==> c in pieces[j].cells) && r.value.cells[c] == Flatten(ColumnOf(pieces, c))
  {
    if pieces == [] then Err(NothingToConcatenate)
    else
      assert forall c :: c in pieces[0].cells ==> forall j :: 0 <= j < |pieces| ==> c in pieces[j].cells by {
        forall c | c in pieces[0].cells {
          ConcatHeight(pieces, c);
        }
      }
      var cells := map c | c in pieces[0].cells :: Flatten(ColumnOf(pieces, c));
      assert forall c :: c in cells ==> |cells[c]| == Sum(Heights(pieces)) by {
        forall c | c in cells {
          ConcatHeight(pieces, c);
        }
      }
      Ok(Frame(pieces[0].columns, cells, Sum(Heights(pieces))))
  }

  /** A column whose cells in the pieces are `parts` is their concatenation. */
  lemma ConcatColumn(pieces: seq<Frame>, c: string, parts: seq<seq<Value>>)
    requires Aligned(pieces) && pieces != [] && c in pieces[0].columns
    requires |parts| == |pieces| && forall j :: 0 <= j < |pieces| ==> c in pieces[j].cells && pieces[j].cells[c] == parts[j]
    ensures ConcatFrames(pieces).Ok? && c in ConcatFrames(pieces).value.cells
    ensures ConcatFrames(pieces).value.cells[c] == Flatten(parts)
  {
    assert ColumnOf(pieces, c) == parts;
  }

  /** `frame[cols]`: the named columns, in the order `cols` gives, repeats included. */
  function Select(f: Frame, cols: seq<string>): (r: Frame)
    requires WellFormed(f)
    requires forall c :: c in cols ==> c in f.cells
    ensures WellFormed(r) && r.columns == cols && r.height == f.height
    ensures forall c :: c in r.cells ==> c in f.cells && r.cells[c] == f.cells[c]
  {
    Frame(cols, map c | c in cols :: f.cells[c], f.height)
  }
}
