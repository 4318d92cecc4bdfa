/**
  Schema normalizer of the MySQL driver: the conversion of flat
  INFORMATION_SCHEMA rows into ColumnInfo, IndexInfo and ForeignKeyInfo
  (src/drivers/mysql/MySQLDriver.ts, getTableInfo).
 */
module Catalog {
  import opened Types
  import opened Seqs
  import opened Wire

  // ---------------------------------------------------------------------
  // Columns

  /** `sub` occurs in `s` at position `i`. */
  predicate OccursAt(s: string, sub: string, i: int) {
    0 <= i <= |s| - |sub| && s[i..i + |sub|] == sub
  }

  /** `s.includes(sub)` */
  predicate Includes(s: string, sub: string) {
    exists i | 0 <= i <= |s| - |sub| :: OccursAt(s, sub, i)
  }

  function ColumnInfoOf(row: ColumnRow): ColumnInfo {
    ColumnInfo(
      row.columnName,
      row.dataType,
      row.isNullable == "YES",
      row.columnDefault,
      row.columnKey == "PRI",
      Includes(row.extra, "auto_increment"))
  }

  /** `columns.map(col => ({ … }))`: one ColumnInfo per row, in row order, with the
      flags derived by string tests. */
  function ColumnInfos(rows: seq<ColumnRow>): (cols: seq<ColumnInfo>)
    ensures |cols| == |rows|
    ensures forall i :: 0 <= i < |rows| ==>
      && cols[i].name == rows[i].columnName
      && cols[i].columnType == rows[i].dataType
      && cols[i].defaultValue == rows[i].columnDefault
      && (cols[i].nullable <==> rows[i].isNullable == "YES")
      && (cols[i].isPrimaryKey <==> rows[i].columnKey == "PRI")
      && (cols[i].isAutoIncrement <==> Includes(rows[i].extra, "auto_increment"))
  {
    seq(|rows|, i requires 0 <= i < |rows| => ColumnInfoOf(rows[i]))
  }

  /** The auto-increment test is a substring test: it also holds when EXTRA carries more text. */
  lemma AutoIncrementAmongOtherExtras(before: string, after: string)
    ensures Includes(before + "auto_increment" + after, "auto_increment")
  {
    var s := before + "auto_increment" + after;
    assert s[|before|..|before| + |"auto_increment"|] == "auto_increment";
    assert OccursAt(s, "auto_increment", |before|);
  }

  // ---------------------------------------------------------------------
  // Foreign keys

  function ForeignKeyInfoOf(row: ForeignKeyRow): ForeignKeyInfo {
    ForeignKeyInfo(row.constraintName, row.columnName, row.referencedTableName, row.referencedColumnName)
  }

  /** `foreignKeys.map(fk => ({ … }))` */
  function ForeignKeyInfos(rows: seq<ForeignKeyRow>): (fks: seq<ForeignKeyInfo>)
    ensures |fks| == |rows|
    ensures forall i :: 0 <= i < |rows| ==> fks[i] == ForeignKeyInfoOf(rows[i])
  {
    seq(|rows|, i requires 0 <= i < |rows| => ForeignKeyInfoOf(rows[i]))
  }

  /** Reading a ForeignKeyInfo back as a KEY_COLUMN_USAGE row. */
  function ForeignKeyRowOf(fk: ForeignKeyInfo): ForeignKeyRow {
    ForeignKeyRow(fk.name, fk.column, fk.referencedTable, fk.referencedColumn)
  }

  /** The foreign-key mapping is one-to-one and loses nothing: the rows can be read back. */
  lemma ForeignKeyInfosRoundTrip(rows: seq<ForeignKeyRow>)
    ensures seq(|rows|, i requires 0 <= i < |rows| => ForeignKeyRowOf(ForeignKeyInfos(rows)[i])) == rows
  {
  }

  // ---------------------------------------------------------------------
  // Indexes

  function IndexNameOf(row: IndexRow): string {
    row.indexName
  }

  /** The COLUMN_NAMEs of the rows of index `name`, in row order. */
  function ColumnsOfIndex(rows: seq<IndexRow>, name: string): (cols: seq<string>)
    ensures |cols| <= |rows|
  {
    if rows == [] then []
    else
      var last := rows[|rows| - 1];
      ColumnsOfIndex(rows[..|rows| - 1], name) + (if last.indexName == name then [last.columnName] else [])
  }

  /** Reference definition of the grouping: one IndexInfo per distinct INDEX_NAME, taken at the
      first row of that index, with all of its rows' columns in row order. */
  function GroupedIndexes(rows: seq<IndexRow>): seq<IndexInfo> {
    var firsts := KeepFirstBy(rows, IndexNameOf);
    seq(|firsts|, i requires 0 <= i < |firsts| =>
      IndexInfo(firsts[i].indexName, ColumnsOfIndex(rows, firsts[i].indexName), firsts[i].nonUnique == 0))
  }

  lemma {:induction false} ColumnsOfAbsentIndex(rows: seq<IndexRow>, name: string)
    requires !HasKey(rows, IndexNameOf, name)
    ensures ColumnsOfIndex(rows, name) == []
  {
    if rows != [] {
      var p := rows[..|rows| - 1];
      assert !HasKey(p, IndexNameOf, name) by {
        forall i | 0 <= i < |p| ensures IndexNameOf(p[i]) != name {
          assert p[i] == rows[i];
        }
      }
      ColumnsOfAbsentIndex(p, name);
      assert IndexNameOf(rows[|rows| - 1]) != name;
    }
  }

  /** One more row: the fold either extends an existing group or opens a new one. */
  lemma GroupStep(rows: seq<IndexRow>, k: nat)
    requires k < |rows|
    ensures var before := KeepFirstBy(rows[..k], IndexNameOf);
      KeepFirstBy(rows[..k + 1], IndexNameOf) ==
        if HasKey(before, IndexNameOf, rows[k].indexName) then before else before + [rows[k]]
    ensures forall n :: (ColumnsOfIndex(rows[..k + 1], n) ==
      ColumnsOfIndex(rows[..k], n) + (if rows[k].indexName == n then [rows[k].columnName] else []))
  {
    assert rows[..k + 1][..k] == rows[..k];
  }

  /** The state of `indexMap` (with its key insertion order) after the first `k` rows. */
  ghost predicate Folded(rows: seq<IndexRow>, k: nat, order: seq<string>, indexMap: map<string, (seq<string>, bool)>)
    requires k <= |rows|
  {
    var firsts := KeepFirstBy(rows[..k], IndexNameOf);
    && |order| == |firsts|
    && (forall i :: 0 <= i < |order| ==> order[i] == firsts[i].indexName)
    && (forall n :: n in indexMap <==> n in order)
    && (forall i :: 0 <= i < |order| ==>
          order[i] in indexMap &&
          indexMap[order[i]] == (ColumnsOfIndex(rows[..k], order[i]), firsts[i].nonUnique == 0))
  }

  /** A row whose index is already in the map extends that index's columns. */
  lemma FoldKnownIndex(rows: seq<IndexRow>, k: nat, order: seq<string>, indexMap: map<string, (seq<string>, bool)>)
    requires k < |rows| && Folded(rows, k, order, indexMap)
    requires rows[k].indexName in indexMap
    ensures var row := rows[k];
      Folded(rows, k + 1, order,
             indexMap[row.indexName := (indexMap[row.indexName].0 + [row.columnName], indexMap[row.indexName].1)])
  {
    var row := rows[k];
    var before := KeepFirstBy(rows[..k], IndexNameOf);
    GroupStep(rows, k);
    var i :| 0 <= i < |order| && order[i] == row.indexName;
    assert IndexNameOf(before[i]) == row.indexName;
    assert KeepFirstBy(rows[..k + 1], IndexNameOf) == before;
    var m := indexMap[row.indexName := (indexMap[row.indexName].0 + [row.columnName], indexMap[row.indexName].1)];
    forall j | 0 <= j < |order|
      ensures order[j] in m && m[order[j]] == (ColumnsOfIndex(rows[..k + 1], order[j]), before[j].nonUnique == 0)
    {
      var n := order[j];
      if n == row.indexName {
        assert ColumnsOfIndex(rows[..k + 1], n) == ColumnsOfIndex(rows[..k], n) + [row.columnName];
      } else {
        assert ColumnsOfIndex(rows[..k + 1], n) == ColumnsOfIndex(rows[..k], n) + [];
        assert ColumnsOfIndex(rows[..k], n) + [] == ColumnsOfIndex(rows[..k], n);
      }
    }
  }

  /** A row of a new index opens an entry at the end of the insertion order. */
  lemma FoldNewIndex(rows: seq<IndexRow>, k: nat, order: seq<string>, indexMap: map<string, (seq<string>, bool)>)
    requires k < |rows| && Folded(rows, k, order, indexMap)
    requires rows[k].indexName !in indexMap
    ensures var row := rows[k];
      Folded(rows, k + 1, order + [row.indexName],
             indexMap[row.indexName := ([row.columnName], row.nonUnique == 0)])
  {
    var row := rows[k];
    var before := KeepFirstBy(rows[..k], IndexNameOf);
    GroupStep(rows, k);
    forall i | 0 <= i < |before| ensures IndexNameOf(before[i]) != row.indexName {
      assert order[i] == IndexNameOf(before[i]) && order[i] in indexMap;
    }
    var after := before + [row];
    assert KeepFirstBy(rows[..k + 1], IndexNameOf) == after;
    assert !HasKey(rows[..k], IndexNameOf, row.indexName);
    ColumnsOfAbsentIndex(rows[..k], row.indexName);
    var o := order + [row.indexName];
    var m := indexMap[row.indexName := ([row.columnName], row.nonUnique == 0)];
    forall j | 0 <= j < |o|
      ensures o[j] == after[j].indexName
      ensures o[j] in m && m[o[j]] == (ColumnsOfIndex(rows[..k + 1], o[j]), after[j].nonUnique == 0)
    {
      var n := o[j];
      if j == |order| {
        assert n == row.indexName && after[j] == row;
        assert ColumnsOfIndex(rows[..k + 1], n) == ColumnsOfIndex(rows[..k], n) + [row.columnName];
        assert [] + [row.columnName] == [row.columnName];
      } else {
        assert n == order[j] && after[j] == before[j];
        assert n != row.indexName;
        assert ColumnsOfIndex(rows[..k + 1], n) == ColumnsOfIndex(rows[..k], n) + [];
        assert ColumnsOfIndex(rows[..k], n) + [] == ColumnsOfIndex(rows[..k], n);
      }
    }
    assert forall n :: n in m <==> n in o;
  }

  /** The `forEach` over the STATISTICS rows that fills `indexMap`, followed by
      `Array.from(indexMap.entries()).map(…)`. */
  method GroupIndexes(rows: seq<IndexRow>) returns (infos: seq<IndexInfo>)
    ensures infos == GroupedIndexes(rows)
  {
    var indexMap: map<string, (seq<string>, bool)> := map[];
    var order: seq<string> := [];  // the insertion order of indexMap's keys
    for k := 0 to |rows|
      invariant Folded(rows, k, order, indexMap)
    {
      var row := rows[k];
      if row.indexName !in indexMap {
        FoldNewIndex(rows, k, order, indexMap);
        indexMap := indexMap[row.indexName := ([], row.nonUnique == 0)];
        order := order + [row.indexName];
      } else {
        FoldKnownIndex(rows, k, order, indexMap);
      }
      var entry := indexMap[row.indexName];
      indexMap := indexMap[row.indexName := (entry.0 + [row.columnName], entry.1)];
    }
    assert rows[..|rows|] == rows;
    infos := seq(|order|, i requires 0 <= i < |order| && order[i] in indexMap =>
      IndexInfo(order[i], indexMap[order[i]].0, indexMap[order[i]].1));
  }

  /** Every element kept by the reference definition is the first row of its key. */
  lemma {:induction false} FirstOccurrencesAreFirsts<T, K>(s: seq<T>, key: T -> K, n: nat, x: T)
    requires n <= |s|
    requires x in FirstOccurrences(s, key, n)
    ensures exists j :: 0 <= j < n && s[j] == x && FirstOfItsKey(s, key, j)
  {
    if x !in FirstOccurrences(s, key, n - 1) {
      assert FirstOfItsKey(s, key, n - 1) && s[n - 1] == x;
    } else {
      FirstOccurrencesAreFirsts(s, key, n - 1, x);
    }
  }

  /** The grouping yields one IndexInfo per index name: no name twice. */
  lemma GroupedIndexesDistinct(rows: seq<IndexRow>)
    ensures var infos := GroupedIndexes(rows);
      forall i, j :: 0 <= i < j < |infos| ==> infos[i].name != infos[j].name
  {
    var firsts := KeepFirstBy(rows, IndexNameOf);
    assert DistinctKeys(firsts, IndexNameOf);
  }

  /** Nothing is lost: every STATISTICS row's column is listed in the IndexInfo of its INDEX_NAME. */
  lemma GroupedIndexesCover(rows: seq<IndexRow>, r: nat)
    requires r < |rows|
    ensures var infos := GroupedIndexes(rows);
      exists i :: 0 <= i < |infos| && infos[i].name == rows[r].indexName
                  && rows[r].columnName in infos[i].columns
  {
    var infos := GroupedIndexes(rows);
    var firsts := KeepFirstBy(rows, IndexNameOf);
    assert HasKey(rows, IndexNameOf, IndexNameOf(rows[r]));
    assert HasKey(firsts, IndexNameOf, IndexNameOf(rows[r]));
    var i :| 0 <= i < |firsts| && IndexNameOf(firsts[i]) == rows[r].indexName;
    ColumnOfIndexListed(rows, r);
    assert infos[i].name == rows[r].indexName;
  }

  /** Each IndexInfo comes from the first row of its index, in first-seen order, and takes
      `isUnique` from that row's NON_UNIQUE. */
  lemma GroupedIndexesFromFirstRow(rows: seq<IndexRow>, i: nat)
    requires i < |GroupedIndexes(rows)|
    ensures var info := GroupedIndexes(rows)[i];
      exists j :: 0 <= j < |rows| && FirstOfItsKey(rows, IndexNameOf, j)
                  && info.name == rows[j].indexName
                  && info.isUnique == (rows[j].nonUnique == 0)
  {
    var firsts := KeepFirstBy(rows, IndexNameOf);
    KeepFirstByIsFirstOccurrences(rows, IndexNameOf);
    assert firsts[i] in FirstOccurrences(rows, IndexNameOf, |rows|);
    FirstOccurrencesAreFirsts(rows, IndexNameOf, |rows|, firsts[i]);
  }

  /** A row's column is listed under its index. */
  lemma {:induction false} ColumnOfIndexListed(rows: seq<IndexRow>, r: nat)
    requires r < |rows|
    ensures rows[r].columnName in ColumnsOfIndex(rows, rows[r].indexName)
  {
    var p := rows[..|rows| - 1];
    if r < |rows| - 1 {
      assert p[r] == rows[r];
      ColumnOfIndexListed(p, r);
    }
  }

  /** The fixture of a composite unique index: both columns, in key order, one IndexInfo. */
  lemma CompositeUniqueIndex(idx: string, a: string, b: string)
    ensures GroupedIndexes([IndexRow(idx, a, 0), IndexRow(idx, b, 0)]) == [IndexInfo(idx, [a, b], true)]
  {
    var rows := [IndexRow(idx, a, 0), IndexRow(idx, b, 0)];
    GroupStep(rows, 0);
    GroupStep(rows, 1);
    assert rows[..0] == [] && rows[..2] == rows;
    assert HasKey([rows[0]], IndexNameOf, idx) by {
      assert IndexNameOf([rows[0]][0]) == idx;
    }
    assert KeepFirstBy(rows, IndexNameOf) == [rows[0]];
    assert ColumnsOfIndex(rows, idx) == [a, b];
  }
}
