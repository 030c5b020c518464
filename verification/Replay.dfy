/**
 Replaying change logs.

 A shard's stream is a list of messages; replaying applies them in order. What a replay leaves
 under a key is decided by the last message on that key alone, which is why shards commute and
 why replaying a stretch a second time does no harm.
 */
module Replay {
  import opened Wrappers
  import opened Rows
  import opened Routing

  /** A published event together with the node it came from. */
  datatype Msg = Msg(from: nat, event: Event)

  ghost predicate AllApplicable(schema: Schema, log: seq<Msg>) {
    forall i :: 0 <= i < |log| ==> Applicable(schema, log[i].event)
  }

  function MsgKey(schema: Schema, msg: Msg): RowKey {
    EventKey(schema, msg.event)
  }

  /** Applies every message of a log in order. */
  function Run(schema: Schema, tables: Tables, log: seq<Msg>): Tables
    requires AllApplicable(schema, log)
    decreases |log|
  {
    if |log| == 0 then tables
    else
      var last := |log| - 1;
      Replicate(schema, Run(schema, tables, log[..last]), log[last].event).value
  }

  /** What a log leaves under one key that held `row` before: the last write on the key wins. */
  function RowAfter(schema: Schema, log: seq<Msg>, key: RowKey, row: Option<Row>): Option<Row>
    decreases |log|
  {
    if |log| == 0 then row
    else
      var last := |log| - 1;
      if MsgKey(schema, log[last]) == key then After(log[last].event)
      else RowAfter(schema, log[..last], key, row)
  }

  ghost predicate Touches(schema: Schema, log: seq<Msg>, key: RowKey) {
    exists i :: 0 <= i < |log| && MsgKey(schema, log[i]) == key
  }

  /** Replaying a log acts on each key as the last message on that key says. */
  lemma {:induction false} RunRow(schema: Schema, tables: Tables, log: seq<Msg>, key: RowKey)
    requires AllApplicable(schema, log)
    ensures Get(Run(schema, tables, log), key) == RowAfter(schema, log, key, Get(tables, key))
    decreases |log|
  {
    if |log| == 0 {
    } else {
      var last := |log| - 1;
      RunRow(schema, tables, log[..last], key);
      ReplicateIsBlindWrite(schema, Run(schema, tables, log[..last]), log[last].event, key);
    }
  }

  lemma {:induction false} RowAfterAppend(schema: Schema, a: seq<Msg>, b: seq<Msg>, key: RowKey, row: Option<Row>)
    ensures RowAfter(schema, a + b, key, row) == RowAfter(schema, b, key, RowAfter(schema, a, key, row))
    decreases |b|
  {
    if |b| == 0 {
      assert a + b == a;
    } else {
      var last := |b| - 1;
      RowAfterAppend(schema, a, b[..last], key, row);
      assert (a + b)[..|a| + last] == a + b[..last];
      assert (a + b)[|a| + last] == b[last];
    }
  }

  /** A log that touches a key forgets what was there; one that does not leaves it alone. */
  lemma {:induction false} RowAfterTouched(schema: Schema, log: seq<Msg>, key: RowKey,
                                           row: Option<Row>, row': Option<Row>)
    ensures Touches(schema, log, key) ==> RowAfter(schema, log, key, row) == RowAfter(schema, log, key, row')
    ensures !Touches(schema, log, key) ==> RowAfter(schema, log, key, row) == row
    decreases |log|
  {
    if |log| == 0 {
    } else {
      var last := |log| - 1;
      RowAfterTouched(schema, log[..last], key, row, row');
      if MsgKey(schema, log[last]) != key && Touches(schema, log, key) {
        var i :| 0 <= i < |log| && MsgKey(schema, log[i]) == key;
        assert log[..last][i] == log[i];
      }
      assert forall i :: 0 <= i < last ==> log[..last][i] == log[i];
    }
  }

  // ---------- shards commute ----------

  /** The messages of a log that belong to one shard, in order. */
  function OfShard(schema: Schema, route: Route, log: seq<Msg>, shard: nat): seq<Msg>
    decreases |log|
  {
    if |log| == 0 then []
    else
      var last := |log| - 1;
      var rest := OfShard(schema, route, log[..last], shard);
      if route(MsgKey(schema, log[last])) == shard then rest + [log[last]] else rest
  }

  /** A key sees only its own shard. */
  lemma {:induction false} RowAfterOfShard(schema: Schema, route: Route, log: seq<Msg>, key: RowKey, row: Option<Row>)
    ensures RowAfter(schema, log, key, row)
         == RowAfter(schema, OfShard(schema, route, log, route(key)), key, row)
    decreases |log|
  {
    if |log| == 0 {
    } else {
      var last := |log| - 1;
      RowAfterOfShard(schema, route, log[..last], key, row);
      var rest := OfShard(schema, route, log[..last], route(key));
      assert (rest + [log[last]])[..|rest|] == rest;
    }
  }

  /** `merged` interleaves the shard logs, keeping each shard's own order. */
  ghost predicate Interleaves(schema: Schema, route: Route, logs: seq<seq<Msg>>, merged: seq<Msg>) {
    AllApplicable(schema, merged)
    && forall s :: 0 <= s < |logs| ==> OfShard(schema, route, merged, s) == logs[s]
  }

  /** The row an interleaving leaves is the one the key's own shard leaves. */
  lemma InterleavingRow(schema: Schema, route: Route, logs: seq<seq<Msg>>, merged: seq<Msg>,
                        tables: Tables, key: RowKey)
    requires Interleaves(schema, route, logs, merged) && route(key) < |logs|
    ensures Get(Run(schema, tables, merged), key) == RowAfter(schema, logs[route(key)], key, Get(tables, key))
  {
    RunRow(schema, tables, merged, key);
    RowAfterOfShard(schema, route, merged, key, Get(tables, key));
  }

  /** Every interleaving of the same shard logs leaves the same database. */
  lemma ShardIndependence(
      schema: Schema, hasher: Hasher, logs: seq<seq<Msg>>, a: seq<Msg>, b: seq<Msg>, tables: Tables)
    requires |logs| > 0
    requires Interleaves(schema, HashRoute(schema, hasher, |logs|), logs, a)
    requires Interleaves(schema, HashRoute(schema, hasher, |logs|), logs, b)
    ensures Run(schema, tables, a) == Run(schema, tables, b)
  {
    var route := HashRoute(schema, hasher, |logs|);
    forall key ensures Get(Run(schema, tables, a), key) == Get(Run(schema, tables, b), key) {
      InterleavingRow(schema, route, logs, a, tables, key);
      InterleavingRow(schema, route, logs, b, tables, key);
    }
    SameRowsSameTables(Run(schema, tables, a), Run(schema, tables, b));
  }
}
