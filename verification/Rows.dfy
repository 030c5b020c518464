/**
 Rows, tables and change events, and what applying a change event does.

 A database is one finite map from row keys to rows: a row key is a table name with the values
 of that table's primary-key columns.
 */
module Rows {
  import opened Wrappers

  /** A cell as the SQLite driver returns it; a time is an instant in nanoseconds. */
  datatype Value =
    | Null
    | Int(i: int)
    | Real(r: real)
    | Text(text: string)
    | Blob(bytes: seq<int>)
    | Time(nanos: int)

  type Row = map<string, Value>

  datatype Column = Column(name: string, isPrimaryKey: bool)

  /** Watched tables with their columns. */
  type Schema = map<string, seq<Column>>

  datatype RowKey = RowKey(table: string, pk: Row)

  type Tables = map<RowKey, Row>

  datatype Event = Event(id: int, kind: string, table: string, row: Row, schemaHash: string)

  datatype ReplicateError = NoTableMapping | InvalidOperation

  /** Reading a missing column yields the nil value. */
  function Cell(row: Row, column: string): Value {
    if column in row then row[column] else Null
  }

  function KeyColumns(columns: seq<Column>): set<string> {
    set i | 0 <= i < |columns| && columns[i].isPrimaryKey :: columns[i].name
  }

  function PrimaryKey(columns: seq<Column>, row: Row): Row {
    map c | c in KeyColumns(columns) :: Cell(row, c)
  }

  function KeyOf(schema: Schema, table: string, row: Row): RowKey {
    RowKey(table, if table in schema then PrimaryKey(schema[table], row) else map[])
  }

  predicate IsUpsert(kind: string) {
    kind == "insert" || kind == "update"
  }

  /** The events that the triggers produce: a watched table and one of the three operations. */
  predicate Applicable(schema: Schema, event: Event) {
    event.table in schema && (IsUpsert(event.kind) || event.kind == "delete")
  }

  function EventKey(schema: Schema, event: Event): RowKey {
    KeyOf(schema, event.table, event.row)
  }

  /** The row an event leaves behind under its key. */
  function After(event: Event): Option<Row> {
    if event.kind == "delete" then None else Some(event.row)
  }

  function Get(tables: Tables, key: RowKey): Option<Row> {
    if key in tables then Some(tables[key]) else None
  }

  /** Applies one event inside a transaction: nothing changes when it fails. */
  function Replicate(schema: Schema, tables: Tables, event: Event): Result<Tables, ReplicateError> {
    if event.table !in schema then Failure(NoTableMapping)
    else
      var key := KeyOf(schema, event.table, event.row);
      if IsUpsert(event.kind) then Success(tables[key := event.row])
      else if event.kind == "delete" then Success(tables - {key})
      else Failure(InvalidOperation)
  }

  /** Applying succeeds exactly for the events the triggers produce. */
  lemma ReplicateSucceeds(schema: Schema, tables: Tables, event: Event)
    ensures Replicate(schema, tables, event).Success? <==> Applicable(schema, event)
    ensures Replicate(schema, tables, event) == Failure(NoTableMapping) <==> event.table !in schema
  {
  }

  /**
   Events are blind writes: the row under the event's key becomes what the event says, whatever
   was there before, and no other row is touched.
   */
  lemma ReplicateIsBlindWrite(schema: Schema, tables: Tables, event: Event, key: RowKey)
    requires Applicable(schema, event)
    ensures Replicate(schema, tables, event).Success?
    ensures Get(Replicate(schema, tables, event).value, key)
         == if key == EventKey(schema, event) then After(event) else Get(tables, key)
  {
  }

  /** Two rows of a watched table are the same row exactly when they agree on the primary-key columns. */
  lemma SameKeyExactly(schema: Schema, table: string, a: Row, b: Row)
    requires table in schema
    ensures KeyOf(schema, table, a) == KeyOf(schema, table, b) <==>
              forall i :: 0 <= i < |schema[table]| && schema[table][i].isPrimaryKey ==>
                Cell(a, schema[table][i].name) == Cell(b, schema[table][i].name)
  {
    var columns := schema[table];
    if KeyOf(schema, table, a) == KeyOf(schema, table, b) {
      forall i | 0 <= i < |columns| && columns[i].isPrimaryKey
        ensures Cell(a, columns[i].name) == Cell(b, columns[i].name)
      {
        assert columns[i].name in KeyColumns(columns);
        assert PrimaryKey(columns, a)[columns[i].name] == PrimaryKey(columns, b)[columns[i].name];
      }
    }
  }

  /** Databases that agree on every key are equal. */
  lemma SameRowsSameTables(a: Tables, b: Tables)
    requires forall key :: Get(a, key) == Get(b, key)
    ensures a == b
  {
    forall key ensures key in a <==> key in b {
      assert Get(a, key) == Get(b, key);
    }
    forall key | key in a ensures a[key] == b[key] {
      assert Get(a, key) == Get(b, key);
    }
  }

  /** The database of one node together with its watched tables. */
  class StreamDB {
    const schema: Schema
    var tables: Tables

    constructor (schema: Schema, tables: Tables)
      ensures this.schema == schema && this.tables == tables
    {
      this.schema := schema;
      this.tables := tables;
    }

    method PrimaryKeyMap(event: Event) returns (pk: Option<Row>)
      ensures pk == if event.table in schema then Some(PrimaryKey(schema[event.table], event.row)) else None
    {
      if event.table !in schema {
        return None;
      }
      var columns := schema[event.table];
      var ret: Row := map[];
      for i := 0 to |columns|
        invariant ret == PrimaryKey(columns[..i], event.row)
      {
        assert KeyColumns(columns[..i + 1]) ==
               KeyColumns(columns[..i]) + (if columns[i].isPrimaryKey then {columns[i].name} else {});
        if columns[i].isPrimaryKey {
          ret := ret[columns[i].name := Cell(event.row, columns[i].name)];
        }
      }
      assert columns[..|columns|] == columns;
      return Some(ret);
    }

    /** Applies one replicated event; a failed event rolls its transaction back. */
    method ReplicateEvent(event: Event) returns (error: Option<ReplicateError>)
      modifies this`tables
      ensures match Replicate(schema, old(tables), event)
              case Success(t) => error == None && tables == t
              case Failure(e) => error == Some(e) && tables == old(tables)
    {
      var pk := PrimaryKeyMap(event);
      if pk == None {
        return Some(NoTableMapping);
      }
      var key := RowKey(event.table, pk.value);
      if event.kind == "insert" || event.kind == "update" {
        tables := tables[key := event.row];
        return None;
      }
      if event.kind == "delete" {
        tables := tables - {key};
        return None;
      }
      return Some(InvalidOperation);
    }
  }

}
