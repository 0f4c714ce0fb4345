/** Assembling the flat rows of `GetColumnsWithDataBySheet` into columns
    (backend/get_columns.go). */
module Columns {
  import opened Wrappers
  import opened Store

  datatype ColumnData = ColumnData(id: Uuid, idx: int, value: Option<string>, kind: Option<string>)

  datatype Column = Column(id: Uuid, name: string, kind: string, required: bool, data: seq<ColumnData>)

  /** The cell a row carries. */
  function Entry(row: ColumnDataRow): ColumnData
  {
    ColumnData(row.dataId.GetOr(0), row.dataIdx.GetOr(0), row.dataValue, row.dataType)
  }

  predicate HasColumn(rows: seq<ColumnDataRow>, id: Uuid)
  {
    exists row :: row in rows && row.columnId == id
  }

  /** The column ids of `rows`, each once, in the order of their first row. */
  function ColumnOrder(rows: seq<ColumnDataRow>): (r: seq<Uuid>)
    ensures forall id :: id in r <==> HasColumn(rows, id)
    ensures forall i, j :: 0 <= i < j < |r| ==> r[i] != r[j]
  {
    if rows == [] then []
    else
      var p := ColumnOrder(rows[..|rows| - 1]);
      var id := rows[|rows| - 1].columnId;
      assert forall row :: row in rows <==> row in rows[..|rows| - 1] || row == rows[|rows| - 1];
      if id in p then p else p + [id]
  }

  /** The index of the first row of column `id`. */
  function FirstIndex(rows: seq<ColumnDataRow>, id: Uuid): (k: nat)
    requires HasColumn(rows, id)
    ensures k < |rows| && rows[k].columnId == id
    ensures forall j :: 0 <= j < k ==> rows[j].columnId != id
  {
    if rows[0].columnId == id then 0
    else
      assert HasColumn(rows[1..], id) by {
        var row :| row in rows && row.columnId == id;
        assert row in rows[1..];
      }
      1 + FirstIndex(rows[1..], id)
  }

  /** The cells of column `id`, in row order. */
  function DataOf(rows: seq<ColumnDataRow>, id: Uuid): seq<ColumnData>
  {
    if rows == [] then []
    else
      var last := rows[|rows| - 1];
      DataOf(rows[..|rows| - 1], id) + (if last.columnId == id && last.dataId.Some? then [Entry(last)] else [])
  }

  /** Column `id` as the rows describe it: header fields from its first row, and one entry
      per row of it that carries a cell. */
  function ColumnFor(rows: seq<ColumnDataRow>, id: Uuid): Column
    requires HasColumn(rows, id)
  {
    var first := rows[FirstIndex(rows, id)];
    Column(id, first.columnName, first.columnType, first.columnRequired, DataOf(rows, id))
  }

  /** The columns of `rows`, in the order of their first appearance. */
  function Group(rows: seq<ColumnDataRow>): seq<Column>
  {
    var order := ColumnOrder(rows);
    seq(|order|, i requires 0 <= i < |order| => ColumnFor(rows, order[i]))
  }

  lemma FirstIndexOfPrefix(rows: seq<ColumnDataRow>, n: nat, id: Uuid)
    requires n <= |rows| && HasColumn(rows[..n], id)
    ensures HasColumn(rows, id) && FirstIndex(rows[..n], id) == FirstIndex(rows, id)
  {
    var k := FirstIndex(rows[..n], id);
    assert rows[k] == rows[..n][k];
  }

  /** How one more row changes the column it belongs to. */
  lemma ColumnForSnoc(rows: seq<ColumnDataRow>, i: nat, id: Uuid)
    requires i < |rows| && HasColumn(rows[..i + 1], id)
    ensures ColumnFor(rows[..i + 1], id) ==
      if HasColumn(rows[..i], id) then
        var c := ColumnFor(rows[..i], id);
        c.(data := c.data + (if rows[i].columnId == id && rows[i].dataId.Some? then [Entry(rows[i])] else []))
      else
        Column(id, rows[i].columnName, rows[i].columnType, rows[i].columnRequired,
               if rows[i].dataId.Some? then [Entry(rows[i])] else [])
  {
    var pre := rows[..i + 1];
    assert pre[..i] == rows[..i];
    assert pre[i] == rows[i];
    if HasColumn(rows[..i], id) {
      FirstIndexOfPrefix(pre, i, id);
    } else {
      DataOfAbsent(rows[..i], id);
      assert forall r :: r in pre ==> r in rows[..i] || r == rows[i];
      assert FirstIndex(pre, id) == i;
    }
  }

  /** `columnMap` holds exactly the columns of `rows`, each as the rows describe it. */
  ghost predicate Indexed(rows: seq<ColumnDataRow>, columnMap: map<Uuid, Column>)
  {
    && (forall id :: id in columnMap <==> HasColumn(rows, id))
    && (forall id :: id in columnMap ==> columnMap[id] == ColumnFor(rows, id))
  }

  /** The column row `row` belongs to once it is read: created from the row's header fields
      when it is new, with the row's cell appended when it carries one. */
  function WithRow(columnMap: map<Uuid, Column>, row: ColumnDataRow): Column
  {
    var c := if row.columnId in columnMap then columnMap[row.columnId]
             else Column(row.columnId, row.columnName, row.columnType, row.columnRequired, []);
    c.(data := c.data + (if row.dataId.Some? then [Entry(row)] else []))
  }

  /** The two updates the loop makes for one row: the column is created when new, and the
      row's cell, if any, is appended to it. */
  function ReadRow(columnMap: map<Uuid, Column>, row: ColumnDataRow): map<Uuid, Column>
  {
    var id := row.columnId;
    var m := if id in columnMap then columnMap
             else columnMap[id := Column(id, row.columnName, row.columnType, row.columnRequired, [])];
    if row.dataId.Some? then m[id := m[id].(data := m[id].data + [Entry(row)])] else m
  }

  /** Reading a row sets its column to `WithRow` and leaves every other column alone. */
  lemma ReadRowUpdates(columnMap: map<Uuid, Column>, row: ColumnDataRow)
    ensures ReadRow(columnMap, row).Keys == columnMap.Keys + {row.columnId}
    ensures ReadRow(columnMap, row)[row.columnId] == WithRow(columnMap, row)
    ensures forall id :: id in columnMap && id != row.columnId ==> ReadRow(columnMap, row)[id] == columnMap[id]
  {
  }

  /** Reading row `i` keeps the map and the order in step with the rows read so far. */
  lemma IndexedSnoc(rows: seq<ColumnDataRow>, i: nat, columnMap: map<Uuid, Column>, columnOrder: seq<Uuid>,
                    after: map<Uuid, Column>, afterOrder: seq<Uuid>)
    requires i < |rows| && Indexed(rows[..i], columnMap) && columnOrder == ColumnOrder(rows[..i])
    requires afterOrder == if rows[i].columnId in columnMap then columnOrder else columnOrder + [rows[i].columnId]
    requires after == ReadRow(columnMap, rows[i])
    ensures Indexed(rows[..i + 1], after) && afterOrder == ColumnOrder(rows[..i + 1])
  {
    assert rows[..i + 1][..i] == rows[..i];
    ReadRowUpdates(columnMap, rows[i]);
    IndexedKeysSnoc(rows, i, columnMap, after);
    IndexedValuesSnoc(rows, i, columnMap, after);
  }

  /** Reading row `i` adds its column to the map's keys. */
  lemma IndexedKeysSnoc(rows: seq<ColumnDataRow>, i: nat, columnMap: map<Uuid, Column>, after: map<Uuid, Column>)
    requires i < |rows| && Indexed(rows[..i], columnMap)
    requires after.Keys == columnMap.Keys + {rows[i].columnId}
    ensures forall id :: id in after <==> HasColumn(rows[..i + 1], id)
  {
    assert forall r :: r in rows[..i + 1] <==> r in rows[..i] || r == rows[i];
  }

  /** Reading row `i` updates its column and no other. */
  lemma IndexedValuesSnoc(rows: seq<ColumnDataRow>, i: nat, columnMap: map<Uuid, Column>, after: map<Uuid, Column>)
    requires i < |rows| && Indexed(rows[..i], columnMap)
    requires after.Keys == columnMap.Keys + {rows[i].columnId}
    requires after[rows[i].columnId] == WithRow(columnMap, rows[i])
    requires forall id :: id in columnMap && id != rows[i].columnId ==> after[id] == columnMap[id]
    ensures forall id :: id in after && HasColumn(rows[..i + 1], id) ==> after[id] == ColumnFor(rows[..i + 1], id)
  {
    forall other | other in after && HasColumn(rows[..i + 1], other)
      ensures after[other] == ColumnFor(rows[..i + 1], other)
    {
      ColumnForSnoc(rows, i, other);
    }
  }

  /** The loop of `GetColumnsWithTx`: a map from column id to column and the list of ids in
      first-seen order, filled row by row. */
  method IndexColumns(rows: seq<ColumnDataRow>) returns (columnMap: map<Uuid, Column>, columnOrder: seq<Uuid>)
    ensures columnOrder == ColumnOrder(rows)
    ensures forall id :: id in columnMap <==> HasColumn(rows, id)
    ensures forall id :: id in columnMap ==> columnMap[id] == ColumnFor(rows, id)
  {
    columnMap := map[];
    columnOrder := [];
    for i := 0 to |rows|
      invariant columnOrder == ColumnOrder(rows[..i])
      invariant Indexed(rows[..i], columnMap)
    {
      var row := rows[i];
      var id := row.columnId;
      ghost var before, beforeOrder := columnMap, columnOrder;
      if id !in columnMap {
        columnMap := columnMap[id := Column(id, row.columnName, row.columnType, row.columnRequired, [])];
        columnOrder := columnOrder + [id];
      }
      if row.dataId.Some? {
        var c := columnMap[id];
        columnMap := columnMap[id := c.(data := c.data + [Entry(row)])];
      }
      assert columnMap == ReadRow(before, row);
      IndexedSnoc(rows, i, before, beforeOrder, columnMap, columnOrder);
    }
    assert rows[..|rows|] == rows;
  }

  /** `GetColumnsWithTx` after its query: the indexed columns read out in first-seen order. */
  method GetColumns(rows: seq<ColumnDataRow>) returns (columns: seq<Column>)
    ensures columns == Group(rows)
  {
    var columnMap, columnOrder := IndexColumns(rows);
    ghost var all := Group(rows);
    columns := [];
    for i := 0 to |columnOrder|
      invariant columns == all[..i]
    {
      var id := columnOrder[i];
      assert id in columnMap by { assert id in ColumnOrder(rows); }
      assert all[..i + 1] == all[..i] + [all[i]];
      columns := columns + [columnMap[id]];
    }
    assert all[..|all|] == all;
  }

  // ---- what the grouping promises ----

  /** Each distinct column id of the rows yields exactly one column. */
  lemma GroupOnePerColumn(rows: seq<ColumnDataRow>)
    ensures forall i, j :: 0 <= i < j < |Group(rows)| ==> Group(rows)[i].id != Group(rows)[j].id
    ensures forall id :: HasColumn(rows, id) <==> exists i :: 0 <= i < |Group(rows)| && Group(rows)[i].id == id
  {
    var order := ColumnOrder(rows);
    forall id | HasColumn(rows, id)
      ensures exists i :: 0 <= i < |Group(rows)| && Group(rows)[i].id == id
    {
      var i :| 0 <= i < |order| && order[i] == id;
      assert Group(rows)[i].id == id;
    }
  }

  /** Columns come out in the order in which their first rows come in. */
  lemma {:induction false} ColumnOrderByFirstRow(rows: seq<ColumnDataRow>)
    ensures forall i, j :: 0 <= i < j < |ColumnOrder(rows)| ==>
      FirstIndex(rows, ColumnOrder(rows)[i]) < FirstIndex(rows, ColumnOrder(rows)[j])
  {
    if rows != [] {
      var init := rows[..|rows| - 1];
      ColumnOrderByFirstRow(init);
      var order := ColumnOrder(rows);
      forall i, j | 0 <= i < j < |order|
        ensures FirstIndex(rows, order[i]) < FirstIndex(rows, order[j])
      {
        assert HasColumn(init, order[i]) by {
          assert order[i] in ColumnOrder(init);
        }
        FirstIndexOfPrefix(rows, |rows| - 1, order[i]);
        if j < |ColumnOrder(init)| {
          FirstIndexOfPrefix(rows, |rows| - 1, order[j]);
        } else {
          assert order[j] !in ColumnOrder(init);
          assert FirstIndex(rows, order[j]) == |rows| - 1;
        }
      }
    }
  }

  lemma GroupInFirstAppearanceOrder(rows: seq<ColumnDataRow>)
    ensures forall i, j :: 0 <= i < j < |Group(rows)| ==>
      HasColumn(rows, Group(rows)[i].id) && HasColumn(rows, Group(rows)[j].id) &&
      FirstIndex(rows, Group(rows)[i].id) < FirstIndex(rows, Group(rows)[j].id)
  {
    ColumnOrderByFirstRow(rows);
    assert forall i :: 0 <= i < |Group(rows)| ==> Group(rows)[i].id == ColumnOrder(rows)[i];
  }

  /** A column's name, type and required flag are those of its first row; its data are
      exactly the cells of its rows that carry one, in row order. */
  lemma GroupHeaderAndData(rows: seq<ColumnDataRow>, i: nat)
    requires i < |Group(rows)|
    ensures var c := Group(rows)[i];
      HasColumn(rows, c.id) &&
      var first := rows[FirstIndex(rows, c.id)];
      c.name == first.columnName && c.kind == first.columnType && c.required == first.columnRequired
      && c.data == DataOf(rows, c.id)
  {
  }

  /** The number of rows carrying a cell. */
  function CountWithData(rows: seq<ColumnDataRow>): nat
  {
    if rows == [] then 0 else CountWithData(rows[..|rows| - 1]) + (if rows[|rows| - 1].dataId.Some? then 1 else 0)
  }

  /** The total number of data entries of the columns `ids`. */
  function DataCount(rows: seq<ColumnDataRow>, ids: seq<Uuid>): nat
  {
    if ids == [] then 0 else |DataOf(rows, ids[0])| + DataCount(rows, ids[1..])
  }

  lemma {:induction false} DataCountAppend(rows: seq<ColumnDataRow>, ids: seq<Uuid>, x: Uuid)
    ensures DataCount(rows, ids + [x]) == DataCount(rows, ids) + |DataOf(rows, x)|
  {
    if ids != [] {
      assert (ids + [x])[1..] == ids[1..] + [x];
      DataCountAppend(rows, ids[1..], x);
    }
  }

  lemma {:induction false} DataCountSnoc(rows: seq<ColumnDataRow>, row: ColumnDataRow, ids: seq<Uuid>)
    requires forall i, j :: 0 <= i < j < |ids| ==> ids[i] != ids[j]
    ensures DataCount(rows + [row], ids)
         == DataCount(rows, ids) + (if row.dataId.Some? && row.columnId in ids then 1 else 0)
  {
    if ids != [] {
      assert (rows + [row])[..|rows + [row]| - 1] == rows;
      DataCountSnoc(rows, row, ids[1..]);
      assert row.columnId in ids <==> row.columnId == ids[0] || row.columnId in ids[1..];
    }
  }

  lemma {:induction false} DataOfAbsent(rows: seq<ColumnDataRow>, id: Uuid)
    requires !HasColumn(rows, id)
    ensures DataOf(rows, id) == []
  {
    if rows != [] {
      assert rows[|rows| - 1] in rows;
      assert !HasColumn(rows[..|rows| - 1], id) by {
        forall row | row in rows[..|rows| - 1] ensures row.columnId != id {
          assert row in rows;
        }
      }
      DataOfAbsent(rows[..|rows| - 1], id);
    }
  }

  /** Every row that carries a cell contributes exactly one data entry. */
  lemma {:induction false} GroupKeepsAllData(rows: seq<ColumnDataRow>)
    ensures DataCount(rows, ColumnOrder(rows)) == CountWithData(rows)
  {
    if rows != [] {
      var init := rows[..|rows| - 1];
      var row := rows[|rows| - 1];
      assert rows == init + [row];
      GroupKeepsAllData(init);
      var p := ColumnOrder(init);
      DataCountSnoc(init, row, p);
      if row.columnId !in p {
        DataCountAppend(rows, p, row.columnId);
        assert !HasColumn(init, row.columnId);
        DataOfAbsent(init, row.columnId);
      }
    }
  }
}
