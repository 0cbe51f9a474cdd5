/** The table view (`renderTableView` in public/app.js): one column per
    property key seen in any row, in order of first appearance, and one cell
    per column in every row. */
module Table {
  import opened Properties

  /** One key of a row's `properties` object with its value. */
  datatype Entry = Entry(key: string, value: Prop)

  /** A database row (`item`): its properties in the order that
      `Object.keys` and `for ... in` visit them. */
  datatype Page = Page(properties: seq<Entry>)

  /** The keys of an object are distinct. */
  predicate DistinctKeys(ps: seq<Entry>) {
    forall i, j :: 0 <= i < j < |ps| ==> ps[i].key != ps[j].key
  }

  predicate NoDuplicates(s: seq<string>) {
    forall i, j :: 0 <= i < j < |s| ==> s[i] != s[j]
  }

  /** `Object.keys(properties)`. */
  function KeysOf(ps: seq<Entry>): (ks: seq<string>)
    ensures |ks| == |ps|
    ensures forall i :: 0 <= i < |ps| ==> ks[i] == ps[i].key
  {
    seq(|ps|, i requires 0 <= i < |ps| => ps[i].key)
  }

  /** `properties[key]`: the value stored under `key`, or undefined. */
  function Lookup(ps: seq<Entry>, key: string): (p: Prop)
    ensures (forall i :: 0 <= i < |ps| ==> ps[i].key != key) ==> p == Missing
  {
    if |ps| == 0 then Missing
    else if ps[0].key == key then ps[0].value
    else Lookup(ps[1..], key)
  }

  /** In an object with distinct keys, looking up the key at position `k`
      gives the value at position `k`. */
  lemma {:induction false} LookupFinds(ps: seq<Entry>, k: int)
    requires DistinctKeys(ps)
    requires 0 <= k < |ps|
    ensures Lookup(ps, ps[k].key) == ps[k].value
  {
    if k > 0 {
      assert ps[0].key != ps[k].key;
      assert ps[1..][k - 1] == ps[k];
      LookupFinds(ps[1..], k - 1);
    }
  }

  /** Every key of every row, row by row, each row's keys in order. */
  function AllKeys(rows: seq<Page>): seq<string>
  {
    if |rows| == 0 then []
    else AllKeys(rows[..|rows| - 1]) + KeysOf(rows[|rows| - 1].properties)
  }

  /** A key occurs in `AllKeys` iff some row has it. */
  lemma {:induction false} AllKeysMembers(rows: seq<Page>, x: string)
    ensures x in AllKeys(rows) <==> exists r :: 0 <= r < |rows| && x in KeysOf(rows[r].properties)
  {
    if |rows| > 0 {
      var init := rows[..|rows| - 1];
      AllKeysMembers(init, x);
      assert forall r :: 0 <= r < |init| ==> init[r] == rows[r];
      if x in AllKeys(rows) && x !in AllKeys(init) {
        assert x in KeysOf(rows[|rows| - 1].properties);
      }
    }
  }

  /** What filling a `Set` in visiting order and reading it back with
      `Array.from` yields: the elements without repeats, each where it first
      occurs. */
  function Dedup(s: seq<string>): seq<string>
  {
    if |s| == 0 then []
    else
      var d := Dedup(s[..|s| - 1]);
      if s[|s| - 1] in d then d else d + [s[|s| - 1]]
  }

  /** The position where `x` first occurs in `s`. */
  function FirstIndex(s: seq<string>, x: string): (k: nat)
    requires x in s
    ensures k < |s| && s[k] == x
    ensures forall j :: 0 <= j < k ==> s[j] != x
  {
    if s[0] == x then 0 else 1 + FirstIndex(s[1..], x)
  }

  /** Appending to a sequence leaves the first position of an element that
      was already there unchanged. */
  lemma FirstIndexExtend(s: seq<string>, t: seq<string>, x: string)
    requires x in s
    ensures x in s + t && FirstIndex(s + t, x) == FirstIndex(s, x)
  {
    var k, k' := FirstIndex(s, x), FirstIndex(s + t, x);
    assert (s + t)[k] == x;
    assert k' <= k;
    assert s[k'] == (s + t)[k'];
  }

  /** Dedup keeps exactly the elements of its input. */
  lemma {:induction false} DedupMembers(s: seq<string>)
    ensures forall x :: x in Dedup(s) <==> x in s
  {
    if |s| > 0 {
      var init := s[..|s| - 1];
      DedupMembers(init);
      assert s == init + [s[|s| - 1]];
    }
  }

  /** Dedup never repeats an element. */
  lemma {:induction false} DedupDistinct(s: seq<string>)
    ensures NoDuplicates(Dedup(s))
  {
    if |s| > 0 {
      DedupDistinct(s[..|s| - 1]);
    }
  }

  /** Dedup lists the elements in order of first appearance. */
  lemma {:induction false} DedupFirstAppearance(s: seq<string>)
    ensures forall x :: x in Dedup(s) ==> x in s
    ensures forall i, j :: 0 <= i < j < |Dedup(s)| ==>
              FirstIndex(s, Dedup(s)[i]) < FirstIndex(s, Dedup(s)[j])
  {
    DedupMembers(s);
    if |s| > 0 {
      var init, last := s[..|s| - 1], s[|s| - 1];
      assert s == init + [last];
      DedupFirstAppearance(init);
      var d := Dedup(init);
      DedupMembers(init);
      forall y | y in d
        ensures FirstIndex(s, y) == FirstIndex(init, y) < |init|
      {
        FirstIndexExtend(init, [last], y);
      }
      if last !in d {
        assert FirstIndex(s, last) == |init|;
      }
    }
  }

  /** The column keys of the table (`Array.from(allProperties)`). */
  function Columns(rows: seq<Page>): seq<string>
  {
    Dedup(AllKeys(rows))
  }

  /** The columns hold every key of every row exactly once, and nothing
      else, in order of first appearance. */
  lemma ColumnsProperties(rows: seq<Page>)
    ensures forall x :: x in Columns(rows) <==> exists r :: 0 <= r < |rows| && x in KeysOf(rows[r].properties)
    ensures NoDuplicates(Columns(rows))
    ensures forall x :: x in Columns(rows) ==> x in AllKeys(rows)
    ensures forall i, j :: 0 <= i < j < |Columns(rows)| ==>
              FirstIndex(AllKeys(rows), Columns(rows)[i]) < FirstIndex(AllKeys(rows), Columns(rows)[j])
  {
    DedupMembers(AllKeys(rows));
    DedupDistinct(AllKeys(rows));
    DedupFirstAppearance(AllKeys(rows));
    forall x ensures x in Columns(rows) <==> exists r :: 0 <= r < |rows| && x in KeysOf(rows[r].properties) {
      AllKeysMembers(rows, x);
    }
  }

  /** The nested `forEach` loops that fill the `allProperties` set. */
  method CollectColumns(rows: seq<Page>) returns (columns: seq<string>)
    ensures columns == Columns(rows)
  {
    columns := [];
    var i := 0;
    while i < |rows|
      invariant 0 <= i <= |rows|
      invariant columns == Dedup(AllKeys(rows[..i]))
    {
      var ps := rows[i].properties;
      ghost var before := AllKeys(rows[..i]);
      var j := 0;
      assert before + KeysOf(ps)[..j] == before;
      while j < |ps|
        invariant 0 <= j <= |ps|
        invariant columns == Dedup(before + KeysOf(ps)[..j])
      {
        ghost var seen := before + KeysOf(ps)[..j];
        assert before + KeysOf(ps)[..j + 1] == seen + [ps[j].key];
        if ps[j].key !in columns {
          columns := columns + [ps[j].key];
        }
        j := j + 1;
      }
      assert KeysOf(ps)[..j] == KeysOf(ps);
      assert rows[..i + 1][..i] == rows[..i];
      i := i + 1;
    }
    assert rows[..i] == rows;
  }

  /** The text of one row's cells: one per column, each the rendering of
      the row's value under the column key. */
  function RowCells(ps: seq<Entry>, columns: seq<string>): (row: seq<string>)
    ensures |row| == |columns|
  {
    seq(|columns|, c requires 0 <= c < |columns| => ToText(Render(Lookup(ps, columns[c]))))
  }

  /** The text of every cell: row by row, one per column. */
  function CellsOf(rows: seq<Page>, columns: seq<string>): (cells: seq<seq<string>>)
    ensures |cells| == |rows|
    ensures forall r :: 0 <= r < |rows| ==> |cells[r]| == |columns|
  {
    seq(|rows|, r requires 0 <= r < |rows| => RowCells(rows[r].properties, columns))
  }

  /** A row without the column's key gets an empty cell; a row with it gets
      the rendering of its value. */
  lemma CellMeaning(rows: seq<Page>, columns: seq<string>, r: int, c: int)
    requires 0 <= r < |rows| && 0 <= c < |columns|
    requires DistinctKeys(rows[r].properties)
    ensures columns[c] !in KeysOf(rows[r].properties) ==> CellsOf(rows, columns)[r][c] == ""
    ensures forall k :: 0 <= k < |rows[r].properties| && rows[r].properties[k].key == columns[c] ==>
              CellsOf(rows, columns)[r][c] == ToText(Render(rows[r].properties[k].value))
  {
    var ps := rows[r].properties;
    forall k | 0 <= k < |ps| && ps[k].key == columns[c]
      ensures CellsOf(rows, columns)[r][c] == ToText(Render(ps[k].value))
    {
      LookupFinds(ps, k);
    }
    if columns[c] !in KeysOf(ps) {
      assert forall i :: 0 <= i < |ps| ==> ps[i].key == KeysOf(ps)[i];
    }
  }

  /** The loop over the columns that appends one cell per column to a row. */
  method BuildRow(ps: seq<Entry>, columns: seq<string>) returns (row: seq<string>)
    ensures row == RowCells(ps, columns)
  {
    row := [];
    var j := 0;
    while j < |columns|
      invariant 0 <= j <= |columns|
      invariant row == RowCells(ps, columns)[..j]
    {
      var value := Render(Lookup(ps, columns[j]));
      row := row + [ToText(value)];
      j := j + 1;
    }
  }

  /** The loop over the rows that builds each row's cells. */
  method BuildCells(rows: seq<Page>, columns: seq<string>) returns (cells: seq<seq<string>>)
    ensures cells == CellsOf(rows, columns)
  {
    cells := [];
    var i := 0;
    while i < |rows|
      invariant 0 <= i <= |rows|
      invariant cells == CellsOf(rows, columns)[..i]
    {
      var row := BuildRow(rows[i].properties, columns);
      cells := cells + [row];
      i := i + 1;
    }
  }

  /** What the table view shows: a "no data" message for an empty result,
      else the header and the body. */
  datatype TableView = NoData | Table(columns: seq<string>, cells: seq<seq<string>>)

  function TableOf(rows: seq<Page>): TableView
  {
    if |rows| == 0 then NoData else Table(Columns(rows), CellsOf(rows, Columns(rows)))
  }

  /** `renderTableView(data)`. */
  method RenderTableView(rows: seq<Page>) returns (view: TableView)
    ensures view == TableOf(rows)
    ensures view.NoData? <==> |rows| == 0
  {
    if |rows| == 0 {
      return NoData;
    }
    var columns := CollectColumns(rows);
    var cells := BuildCells(rows, columns);
    view := Table(columns, cells);
  }
}
