/** Which shard a change event is published to. */
module Routing {
  import opened Rows
  import opened Sorting

  /** The 64-bit hash of a table name followed by [column, value] pairs. */
  type Hasher = (string, seq<(string, Value)>) -> nat

  function Self(s: string): string { s }

  function KeyColumnNames(columns: seq<Column>): (names: seq<string>)
    ensures forall c :: c in names <==> c in KeyColumns(columns)
  {
    if |columns| == 0 then []
    else
      var last := |columns| - 1;
      assert columns[..last + 1] == columns;
      assert KeyColumns(columns) == KeyColumns(columns[..last + 1]);
      KeyColumnNames(columns[..last]) + if columns[last].isPrimaryKey then [columns[last].name] else []
  }

  function SortedKeyColumns(columns: seq<Column>): seq<string> {
    Sort(KeyColumnNames(columns), Self)
  }

  /** The pairs written to the hasher after the table name. */
  function HashedCells(columns: seq<string>, row: Row): (cells: seq<(string, Value)>)
    ensures |cells| == |columns|
    ensures forall i :: 0 <= i < |cells| ==> cells[i] == (columns[i], Cell(row, columns[i]))
  {
    if |columns| == 0 then []
    else
      var last := |columns| - 1;
      HashedCells(columns[..last], row) + [(columns[last], Cell(row, columns[last]))]
  }

  /** Zero-based shard index; stream and subject names use index + 1. */
  function ShardOf(schema: Schema, hasher: Hasher, shards: nat, table: string, row: Row): (shard: nat)
    requires table in schema && shards > 0
    ensures shard < shards
  {
    hasher(table, HashedCells(SortedKeyColumns(schema[table]), row)) % shards
  }

  /** The shard of a row, from its key alone. */
  function ShardOfKey(schema: Schema, hasher: Hasher, shards: nat, key: RowKey): (shard: nat)
    requires shards > 0
    ensures shard < shards
  {
    if key.table in schema then ShardOf(schema, hasher, shards, key.table, key.pk) else 0
  }

  /** A routing function sends every row to one of the shards. */
  type Route = RowKey -> nat

  /** The routing that the event hash induces. */
  function HashRoute(schema: Schema, hasher: Hasher, shards: nat): Route
    requires shards > 0
  {
    key => ShardOfKey(schema, hasher, shards, key)
  }

  /** Only the primary-key values of a row reach the hasher. */
  lemma HashedCellsOfKey(columns: seq<Column>, row: Row)
    ensures HashedCells(SortedKeyColumns(columns), row)
         == HashedCells(SortedKeyColumns(columns), PrimaryKey(columns, row))
  {
    var names := SortedKeyColumns(columns);
    SortKeeps(KeyColumnNames(columns), Self);
    forall i | 0 <= i < |names|
      ensures HashedCells(names, row)[i] == HashedCells(names, PrimaryKey(columns, row))[i]
    {
      assert names[i] in names;
    }
  }

  /** All events on one row go to one shard: the shard is a function of the row's key. */
  lemma ShardOfRow(schema: Schema, hasher: Hasher, shards: nat, table: string, row: Row)
    requires table in schema && shards > 0
    ensures ShardOf(schema, hasher, shards, table, row)
         == HashRoute(schema, hasher, shards)(KeyOf(schema, table, row)) < shards
  {
    HashedCellsOfKey(schema[table], row);
    var pk := PrimaryKey(schema[table], row);
    assert PrimaryKey(schema[table], pk) == pk;
  }

  lemma CellsAgree(names: seq<string>, row: Row, row': Row)
    ensures HashedCells(names, row) == HashedCells(names, row') <==>
              forall c :: c in names ==> Cell(row, c) == Cell(row', c)
  {
    var a, b := HashedCells(names, row), HashedCells(names, row');
    if a == b {
      forall c | c in names ensures Cell(row, c) == Cell(row', c) {
        var i :| 0 <= i < |names| && names[i] == c;
        assert a[i] == b[i];
      }
    }
  }

  /** The hasher sees the same for two rows exactly when they have the same key. */
  lemma HashedIsKey(schema: Schema, table: string, row: Row, row': Row)
    requires table in schema
    ensures var names := SortedKeyColumns(schema[table]);
            HashedCells(names, row) == HashedCells(names, row') <==>
              KeyOf(schema, table, row) == KeyOf(schema, table, row')
  {
    var names, columns := SortedKeyColumns(schema[table]), schema[table];
    SortKeeps(KeyColumnNames(columns), Self);
    CellsAgree(names, row, row');
    if KeyOf(schema, table, row) == KeyOf(schema, table, row') {
      forall c | c in names ensures Cell(row, c) == Cell(row', c) {
        assert PrimaryKey(columns, row)[c] == PrimaryKey(columns, row')[c];
      }
    }
  }

  lemma SomeHasherSeparates(table: string, cells: seq<(string, Value)>, table': string, cells': seq<(string, Value)>)
      returns (hasher: Hasher)
    requires table != table' || cells != cells'
    ensures hasher(table, cells) == 0 && hasher(table', cells') == 1
  {
    hasher := (t, xs) => if t == table && xs == cells then 0 else 1;
  }

  /** Two rows share their shard under every hash function. */
  ghost predicate SameShard(schema: Schema, shards: nat, table: string, row: Row, table': string, row': Row)
    requires table in schema && table' in schema && shards > 0
  {
    forall hasher :: ShardOf(schema, hasher, shards, table, row) == ShardOf(schema, hasher, shards, table', row')
  }

  lemma SmallRemainders(shards: nat)
    requires shards > 1
    ensures 0 % shards == 0 && 1 % shards == 1
  {
  }

  lemma OtherKeyOtherShard(schema: Schema, shards: nat, table: string, row: Row, table': string, row': Row)
    requires table in schema && table' in schema && shards > 1
    requires KeyOf(schema, table, row) != KeyOf(schema, table', row')
    ensures !SameShard(schema, shards, table, row, table', row')
  {
    if table == table' {
      HashedIsKey(schema, table, row, row');
    }
    var hasher := SomeHasherSeparates(table, HashedCells(SortedKeyColumns(schema[table]), row),
                                      table', HashedCells(SortedKeyColumns(schema[table']), row'));
    SmallRemainders(shards);
    assert ShardOf(schema, hasher, shards, table, row) == 0;
    assert ShardOf(schema, hasher, shards, table', row') == 1;
  }

  lemma SameKeySameShard(schema: Schema, shards: nat, table: string, row: Row, row': Row)
    requires table in schema && shards > 0 && KeyOf(schema, table, row) == KeyOf(schema, table, row')
    ensures SameShard(schema, shards, table, row, table, row')
  {
    HashedIsKey(schema, table, row, row');
  }

  /**
   Routing depends on the key and on nothing else: with two shards or more, two rows are in the same
   shard whatever the hash function exactly when they have the same key.
   */
  lemma SameShardExactly(schema: Schema, shards: nat, table: string, row: Row, table': string, row': Row)
    requires table in schema && table' in schema && shards > 1
    ensures SameShard(schema, shards, table, row, table', row') <==>
              KeyOf(schema, table, row) == KeyOf(schema, table', row')
  {
    if KeyOf(schema, table, row) == KeyOf(schema, table', row') {
      SameKeySameShard(schema, shards, table, row, row');
    } else {
      OtherKeyOtherShard(schema, shards, table, row, table', row');
    }
  }

  /** Nodes that list a table's columns in different orders still route its rows alike. */
  lemma RoutingIgnoresColumnOrder(columns: seq<Column>, columns': seq<Column>, row: Row)
    requires DistinctNames(KeyColumnNames(columns), Self) && DistinctNames(KeyColumnNames(columns'), Self)
    requires KeyColumns(columns) == KeyColumns(columns')
    ensures HashedCells(SortedKeyColumns(columns), row) == HashedCells(SortedKeyColumns(columns'), row)
  {
    SortCanonical(KeyColumnNames(columns), KeyColumnNames(columns'), Self);
  }

  /** The process-wide cache of sorted key columns per table. */
  class KeyColumnCache {
    var cache: map<string, seq<string>>

    /** Every cached entry is the one the given schema would produce. */
    ghost predicate AgreesWith(schema: Schema)
      reads this
    {
      forall table :: table in cache && table in schema ==> cache[table] == SortedKeyColumns(schema[table])
    }

    constructor ()
      ensures cache == map[]
    {
      cache := map[];
    }

    method SortedPKColumns(table: string, tableInfo: seq<Column>) returns (names: seq<string>)
      modifies this
      ensures names == if table in old(cache) then old(cache)[table] else SortedKeyColumns(tableInfo)
      ensures cache == old(cache)[table := names]
    {
      if table in cache {
        assert cache == cache[table := cache[table]];
        return cache[table];
      }
      var pkColumns: seq<string> := [];
      for i := 0 to |tableInfo|
        invariant pkColumns == KeyColumnNames(tableInfo[..i])
        invariant cache == old(cache)
      {
        assert tableInfo[..i + 1][..i] == tableInfo[..i];
        if tableInfo[i].isPrimaryKey {
          pkColumns := pkColumns + [tableInfo[i].name];
        }
      }
      assert tableInfo[..|tableInfo|] == tableInfo;
      names := Sort(pkColumns, Self);
      cache := cache[table := names];
    }

    /**
     The shard of an event, through the cache. While the cache agrees with the schema the answer
     is the shard of the event's row, and the cache keeps agreeing.
     */
    method Shard(schema: Schema, hasher: Hasher, shards: nat, event: Event) returns (shard: nat)
      requires event.table in schema && shards > 0 && AgreesWith(schema)
      modifies this
      ensures AgreesWith(schema)
      ensures shard == HashRoute(schema, hasher, shards)(EventKey(schema, event))
    {
      var names := SortedPKColumns(event.table, schema[event.table]);
      var hash := hasher(event.table, HashedCells(names, event.row));
      shard := hash % shards;
      ShardOfRow(schema, hasher, shards, event.table, event.row);
    }
  }
}
