/**
 * The in-memory tables the pipeline passes around: a pandas DataFrame as a
 * height and a sequence of named columns, the column-level operations the
 * pipeline uses (`df[c]`, `df[c] = v`, `df[[c1, c2]]`, renaming, sorting), and
 * `Frame`, the mutable DataFrame object that the normalisers update in place.
 */
module Tables {
  import opened Wrappers
  import opened Cells
  import opened Sorting

  datatype Column = Column(name: string, cells: seq<Cell>)

  datatype Table = Table(height: nat, cols: seq<Column>)

  /** The exceptions the modelled code can raise. */
  datatype Error =
    | MissingColumn(name: string)    // KeyError on `df[name]`
    | BlankValue(column: string)     // IndexError on `val_strip[0]`
    | Incomparable(column: string)   // TypeError while sorting
    | NotAnInteger(column: string)   // ValueError in `astype(int)`

  predicate WellFormed(t: Table) {
    forall i :: 0 <= i < |t.cols| ==> |t.cols[i].cells| == t.height
  }

  function Names(cols: seq<Column>): (r: seq<string>)
    ensures |r| == |cols| && forall i :: 0 <= i < |cols| ==> r[i] == cols[i].name
  {
    seq(|cols|, i requires 0 <= i < |cols| => cols[i].name)
  }

  /** Position of the first column called `name`, or `|cols|` when there is none. */
  function IndexOf(cols: seq<Column>, name: string): (r: nat)
    ensures r <= |cols|
    ensures r < |cols| ==> cols[r].name == name
    ensures forall i :: 0 <= i < r ==> cols[i].name != name
  {
    if cols == [] then 0
    else if cols[0].name == name then 0
    else 1 + IndexOf(cols[1..], name)
  }

  lemma IndexOfSameNames(a: seq<Column>, b: seq<Column>, name: string)
    requires Names(a) == Names(b)
    ensures IndexOf(a, name) == IndexOf(b, name)
  {
    var i, j := IndexOf(a, name), IndexOf(b, name);
    assert forall k :: 0 <= k < |a| ==> a[k].name == Names(a)[k] == Names(b)[k] == b[k].name;
  }

  lemma IndexOfAppend(a: seq<Column>, c: Column, name: string)
    requires c.name != name
    ensures IndexOf(a + [c], name) == if IndexOf(a, name) < |a| then IndexOf(a, name) else |a| + 1
  {
    var i, j := IndexOf(a, name), IndexOf(a + [c], name);
    assert forall k :: 0 <= k < |a| ==> (a + [c])[k] == a[k];
  }

  lemma IndexOfAppendNew(a: seq<Column>, c: Column)
    requires IndexOf(a, c.name) == |a|
    ensures IndexOf(a + [c], c.name) == |a|
  {
    assert forall k :: 0 <= k < |a| ==> (a + [c])[k] == a[k];
    assert (a + [c])[|a|] == c;
  }

  /** `name in df.columns` */
  predicate Has(t: Table, name: string) {
    IndexOf(t.cols, name) < |t.cols|
  }

  lemma HasIffNamed(t: Table, name: string)
    ensures Has(t, name) <==> name in Names(t.cols)
  {
    if name in Names(t.cols) {
      var k :| 0 <= k < |t.cols| && Names(t.cols)[k] == name;
    }
  }

  /** `df[name]` when the column exists. */
  function Get(t: Table, name: string): seq<Cell>
    requires Has(t, name)
  {
    t.cols[IndexOf(t.cols, name)].cells
  }

  lemma GetLength(t: Table, name: string)
    requires WellFormed(t) && Has(t, name)
    ensures |Get(t, name)| == t.height
  {
  }

  /** `df[name]`, with the KeyError of a missing column. */
  function Lookup(t: Table, name: string): (r: Result<seq<Cell>, Error>)
    ensures r.Success? <==> Has(t, name)
    ensures r.Success? ==> r.value == Get(t, name)
    ensures r.Failure? ==> r.error == MissingColumn(name)
  {
    if Has(t, name) then Success(Get(t, name)) else Failure(MissingColumn(name))
  }

  /** `df[name] = cells`: replaces that column, or adds it at the end. */
  function Put(t: Table, name: string, cells: seq<Cell>): (r: Table)
    ensures r.height == t.height
    ensures Has(r, name) && Get(r, name) == cells
    ensures forall other :: other != name ==>
      (Has(r, other) <==> Has(t, other)) && (Has(t, other) ==> Get(r, other) == Get(t, other))
    ensures Names(r.cols) == if Has(t, name) then Names(t.cols) else Names(t.cols) + [name]
    ensures WellFormed(t) && |cells| == t.height ==> WellFormed(r)
  {
    var i := IndexOf(t.cols, name);
    var c := Column(name, cells);
    if i < |t.cols| then
      var r := Table(t.height, t.cols[i := c]);
      assert Names(r.cols) == Names(t.cols);
      assert forall other :: IndexOf(r.cols, other) == IndexOf(t.cols, other) by {
        forall other {
          IndexOfSameNames(r.cols, t.cols, other);
        }
      }
      r
    else
      var r := Table(t.height, t.cols + [c]);
      assert Names(r.cols) == Names(t.cols) + [name];
      assert forall other :: other != name ==>
        IndexOf(r.cols, other) == (if IndexOf(t.cols, other) < |t.cols| then IndexOf(t.cols, other) else |t.cols| + 1) by {
        forall other | other != name {
          IndexOfAppend(t.cols, c, other);
        }
      }
      IndexOfAppendNew(t.cols, c);
      r
  }

  /** Position in `names` of the first one the table lacks, or `|names|`. */
  function FirstMissing(t: Table, names: seq<string>): (k: nat)
    ensures k <= |names|
    ensures k < |names| ==> !Has(t, names[k])
    ensures forall i :: 0 <= i < k ==> Has(t, names[i])
  {
    if names == [] then 0
    else if !Has(t, names[0]) then 0
    else 1 + FirstMissing(t, names[1..])
  }

  /** `df[names]`: the listed columns, in list order, or the KeyError of a missing one. */
  function Project(t: Table, names: seq<string>): (r: Result<Table, Error>)
    ensures r.Success? <==> forall i :: 0 <= i < |names| ==> Has(t, names[i])
    ensures r.Failure? ==> exists i :: 0 <= i < |names| && r.error == MissingColumn(names[i]) && !Has(t, names[i])
    ensures r.Success? ==> (r.value.height == t.height && Names(r.value.cols) == names
      && forall i :: 0 <= i < |names| ==> r.value.cols[i].cells == Get(t, names[i]))
    ensures r.Success? && WellFormed(t) ==> WellFormed(r.value)
  {
    var k := FirstMissing(t, names);
    if k < |names| then Failure(MissingColumn(names[k]))
    else Success(Table(t.height, seq(|names|, i requires 0 <= i < |names| => Column(names[i], Get(t, names[i])))))
  }

  /** Every column name passed through `f`; the data is untouched. */
  function MapNames(t: Table, f: string -> string): (r: Table)
    ensures r.height == t.height && |r.cols| == |t.cols|
    ensures forall i :: 0 <= i < |t.cols| ==> r.cols[i] == Column(f(t.cols[i].name), t.cols[i].cells)
    ensures WellFormed(t) ==> WellFormed(r)
  {
    Table(t.height, seq(|t.cols|, i requires 0 <= i < |t.cols| => Column(f(t.cols[i].name), t.cols[i].cells)))
  }

  /** `dict.get(x, x)`: the mapped value, or `x` itself when the key is absent. */
  function MapOr(m: map<string, string>, x: string): string {
    if x in m then m[x] else x
  }

  /** `df.rename(columns=m)` */
  function Rename(t: Table, m: map<string, string>): Table {
    MapNames(t, n => MapOr(m, n))
  }

  /** Rows listed by `p`, in that order. */
  function Reorder(t: Table, p: seq<nat>): (r: Table)
    requires WellFormed(t) && InRange(p, t.height)
    ensures WellFormed(r) && r.height == |p| && Names(r.cols) == Names(t.cols)
    ensures forall i, k :: 0 <= i < |t.cols| && 0 <= k < |p| ==> r.cols[i].cells[k] == t.cols[i].cells[p[k]]
  {
    Table(|p|, seq(|t.cols|, i requires 0 <= i < |t.cols| =>
      Column(t.cols[i].name, seq(|p|, k requires 0 <= k < |p| => t.cols[i].cells[p[k]]))))
  }

  /** The cells listed in the order `p` gives. */
  function Permute(cells: seq<Cell>, p: seq<nat>): (r: seq<Cell>)
    requires InRange(p, |cells|)
    ensures |r| == |p| && forall k :: 0 <= k < |p| ==> r[k] == cells[p[k]]
  {
    seq(|p|, k requires 0 <= k < |p| => cells[p[k]])
  }

  /** A column read after reordering holds that column's cells in the new row order. */
  lemma GetReorder(t: Table, p: seq<nat>, name: string)
    requires WellFormed(t) && InRange(p, t.height) && Has(t, name)
    ensures Has(Reorder(t, p), name)
    ensures |Get(t, name)| == t.height && Get(Reorder(t, p), name) == Permute(Get(t, name), p)
  {
    var r := Reorder(t, p);
    IndexOfSameNames(r.cols, t.cols, name);
    var i := IndexOf(t.cols, name);
    assert |r.cols[i].cells| == |p|;
    var want := Permute(Get(t, name), p);
    forall k | 0 <= k < |p|
      ensures r.cols[i].cells[k] == want[k]
    {
      assert i < |t.cols| && Get(t, name) == t.cols[i].cells;
      assert r.cols[i].cells[k] == t.cols[i].cells[p[k]];
    }
    assert Get(r, name) == r.cols[i].cells == want;
  }

  /** Listing every row in its own place changes nothing. */
  lemma ReorderIdentity(t: Table)
    requires WellFormed(t)
    ensures Reorder(t, Range(t.height)) == t
  {
    var r := Reorder(t, Range(t.height));
    forall i | 0 <= i < |t.cols|
      ensures r.cols[i] == t.cols[i]
    {
      assert r.cols[i].cells == t.cols[i].cells;
    }
  }

  /** Assigning a column the cells it already holds changes nothing. */
  lemma PutSame(t: Table, name: string, cells: seq<Cell>)
    requires Has(t, name) && Get(t, name) == cells
    ensures Put(t, name, cells) == t
  {
    var i := IndexOf(t.cols, name);
    assert t.cols[i] == Column(name, cells);
  }

  /** `df.sort_values(key)`: ascending, missing values last. */
  function SortRows(t: Table, key: string): (r: Result<Table, Error>)
    requires WellFormed(t)
    ensures r.Success? <==> Has(t, key) && Comparable(Get(t, key))
    ensures r.Success? ==> WellFormed(r.value) && r.value.height == t.height && Names(r.value.cols) == Names(t.cols)
  {
    if !Has(t, key) then Failure(MissingColumn(key))
    else if !Comparable(Get(t, key)) then Failure(Incomparable(key))
    else Success(Reorder(t, SortOrder(Get(t, key))))
  }

  /** The mutable DataFrame object of the normalisers. */
  class Frame {
    var height: nat
    var cols: seq<Column>

    predicate Valid()
      reads this
    {
      WellFormed(Table(height, cols))
    }

    function Value(): Table
      reads this
    {
      Table(height, cols)
    }

    constructor (t: Table)
      requires WellFormed(t)
      ensures Valid() && Value() == t
    {
      height := t.height;
      cols := t.cols;
    }

    /** `df[name] = cells` */
    method Assign(name: string, cells: seq<Cell>)
      requires Valid() && |cells| == height
      modifies this
      ensures Valid() && Value() == Put(old(Value()), name, cells)
    {
      var t := Put(Value(), name, cells);
      height, cols := t.height, t.cols;
    }

    /** `df.columns = [f(c) for c in df.columns]` */
    method Relabel(f: string -> string)
      requires Valid()
      modifies this
      ensures Valid() && Value() == MapNames(old(Value()), f)
    {
      var t := MapNames(Value(), f);
      cols := t.cols;
    }

    /** `df = df.rename(columns=m)` */
    method RenameColumns(m: map<string, string>)
      requires Valid()
      modifies this
      ensures Valid() && Value() == Rename(old(Value()), m)
    {
      var t := Rename(Value(), m);
      cols := t.cols;
    }

    /** `df.sort_values(key, inplace=True)`; on an exception the frame is left as it was. */
    method SortValues(key: string) returns (err: Option<Error>)
      requires Valid()
      modifies this
      ensures Valid()
      ensures SortRows(old(Value()), key).Success? ==> err.None? && Value() == SortRows(old(Value()), key).value
      ensures SortRows(old(Value()), key).Failure? ==> err == Some(SortRows(old(Value()), key).error) && Value() == old(Value())
    {
      var r := SortRows(Value(), key);
      if r.Failure? {
        return Some(r.error);
      }
      height, cols := r.value.height, r.value.cols;
      err := None;
    }
  }
}
