/**
 Each update-losing switch breaks convergence on its own.

 For every configuration with two nodes and a watched table, a concrete run is given for each
 switch, so the five switches together are exactly the condition under which runs converge.
 */
module Faults {
  import opened Wrappers
  import opened Rows
  import opened Replay
  import opened Cluster
  import opened Convergence
  import opened Progress
  import Wire

  /** Row number `v` of table `t`: every key column holds `v`. */
  function KeyRow(cfg: Config, t: string, v: int): Row {
    map c | c in KeysOf(cfg, t) :: Int(v)
  }

  function KeysOf(cfg: Config, t: string): set<string> {
    if t in cfg.schema then KeyColumns(cfg.schema[t]) else {}
  }

  /** A row without times travels unchanged. */
  lemma PlainRowIsSafe(cfg: Config, kind: string, t: string, row: Row, id: int)
    requires t in cfg.schema && forall c :: c in row ==> row[c].Int?
    ensures Wire.OverWire(Event(id, kind, t, row, "")) == Event(id, kind, t, row, "")
    ensures WireSafe(cfg.schema, Event(id, kind, t, row, ""))
  {
  }

  lemma KeyRowKey(cfg: Config, t: string, v: int, extra: Row)
    requires t in cfg.schema && extra.Keys !! KeyColumns(cfg.schema[t])
    ensures KeyOf(cfg.schema, t, KeyRow(cfg, t, v) + extra) == RowKey(t, KeyRow(cfg, t, v))
  {
  }

  lemma PlainKeyRowKey(cfg: Config, t: string, v: int)
    requires t in cfg.schema
    ensures KeyOf(cfg.schema, t, KeyRow(cfg, t, v)) == RowKey(t, KeyRow(cfg, t, v))
  {
  }

  function Inserted(t: string, row: Row): Event {
    Event(0, "insert", t, row, "")
  }

  // ---------- building runs step by step ----------

  ghost predicate Reached(cfg: Config, init: Tables, steps: seq<Step>, c: State) {
    Wf(cfg, c) && IsRun(cfg, Start(cfg, init), steps, c)
  }

  ghost predicate Reachable(cfg: Config, init: Tables, c: State) {
    Wf(cfg, c) && exists steps :: Reached(cfg, init, steps, c)
  }

  lemma ReachOn(cfg: Config, init: Tables, c: State, step: Step)
    requires Reachable(cfg, init, c) && Enabled(cfg, c, step)
    ensures Reachable(cfg, init, Do(cfg, c, step))
  {
    var steps :| Reached(cfg, init, steps, c);
    StepKeepsWf(cfg, c, step);
    RunOne(cfg, c, step);
    RunAppend(cfg, Start(cfg, init), steps, c, [step], Do(cfg, c, step));
    assert Reached(cfg, init, steps + [step], Do(cfg, c, step));
  }

  /** A quiet run is a run. */
  lemma QuietReaches(cfg: Config, init: Tables, c: State, c': State)
    requires Reachable(cfg, init, c) && Leads(cfg, c, c')
    ensures Reachable(cfg, init, c')
  {
    var steps :| Reached(cfg, init, steps, c);
    var quiet :| QuietRun(cfg, c, quiet, c');
    QuietIsRun(cfg, c, quiet, c');
    RunAppend(cfg, Start(cfg, init), steps, c, quiet, c');
    assert Reached(cfg, init, steps + quiet, c');
  }

  /** A running node with nothing to publish. */
  ghost predicate Waits(cfg: Config, c: State, n: nat) {
    n < |c.nodes| && WaitingNode(cfg, c.nodes[n])
  }

  ghost predicate WaitingNode(cfg: Config, node: Node) {
    node.up && node.queue == [] && LoadedNode(cfg, node)
  }

  /** Node `n` writes with nothing else captured. */
  lemma WriteOnly(cfg: Config, init: Tables, c: State, n: nat, stmt: Statement) returns (c': State)
    requires Reachable(cfg, init, c)
    requires n < cfg.nodes && c.nodes[n].queue == [] && Executable(cfg, c.nodes[n].db.tables, stmt)
    ensures Reachable(cfg, init, c')
    ensures c' == c.(nodes := c.nodes[n := AfterWrite(cfg, c.nodes[n], 0, stmt)])
  {
    ReachOn(cfg, init, c, LocalWrite(n, 0, stmt));
    c' := Do(cfg, c, LocalWrite(n, 0, stmt));
  }

  /** Publishing the only captured change of a node. */
  lemma PublishOnly(cfg: Config, init: Tables, c: State, n: nat) returns (c': State)
    requires Reachable(cfg, init, c) && n < cfg.nodes && c.nodes[n].up && |c.nodes[n].queue| == 1
    ensures Reachable(cfg, init, c')
    ensures var event := c.nodes[n].queue[0];
            var s := cfg.route(EventKey(cfg.schema, event));
            c' == c.(logs := c.logs[s := c.logs[s] + [Msg(n, Wire.OverWire(event))]],
                     nodes := c.nodes[n := AfterPublish(c.nodes[n], 0, true, cfg.snapshots, s, |c.logs[s]| + 1)])
  {
    ReachOn(cfg, init, c, Publish(n, 0, true, cfg.snapshots));
    c' := Do(cfg, c, Publish(n, 0, true, cfg.snapshots));
  }

  /** What publishing a change to place `seqNo` of shard `s` does to its node. */
  ghost predicate Told(cfg: Config, node: Node, node': Node, s: nat, seqNo: nat) {
    && |node.seqMap| == |node.listeners| == |node'.seqMap| == |node'.listeners| == cfg.shards && s < cfg.shards
    && SameWrites(node, node')
    && node'.seqMap == (if cfg.snapshots then node.seqMap[s := Max(node.seqMap[s], seqNo)] else node.seqMap)
    && forall u :: 0 <= u < cfg.shards ==> SamePosition(node.listeners[u], node'.listeners[u])
  }

  predicate SamePosition(l: Listener, l': Listener) {
    l'.saved == l.saved && l'.cursor == l.cursor && l'.inflight == l.inflight
  }

  lemma TellNode(cfg: Config, node: Node, stmt: Statement, s: nat, seqNo: nat)
    requires WaitingNode(cfg, node) && s < cfg.shards
    ensures var wrote := AfterWrite(cfg, node, 0, stmt);
            wrote.queue == [Captured(0, stmt)]
            && AfterPublish(wrote, 0, true, cfg.snapshots, s, seqNo).db.tables
               == Execute(cfg.schema, node.db.tables, stmt)
            && Told(cfg, node, AfterPublish(wrote, 0, true, cfg.snapshots, s, seqNo), s, seqNo)
            && WaitingNode(cfg, AfterPublish(wrote, 0, true, cfg.snapshots, s, seqNo))
  {
  }

  /** Writing and publishing leads to the state with the new message and the new node. */
  lemma TellReaches(cfg: Config, init: Tables, c: State, n: nat, stmt: Statement, s: nat, node: Node)
    requires Reachable(cfg, init, c) && Waits(cfg, c, n) && Executable(cfg, c.nodes[n].db.tables, stmt)
    requires s == cfg.route(EventKey(cfg.schema, Captured(0, stmt)))
    requires AfterWrite(cfg, c.nodes[n], 0, stmt).queue == [Captured(0, stmt)] && s < |c.nodes[n].seqMap|
    requires node == AfterPublish(AfterWrite(cfg, c.nodes[n], 0, stmt), 0, true, cfg.snapshots, s, |c.logs[s]| + 1)
    ensures Reachable(cfg, init, c.(logs := c.logs[s := c.logs[s] + [Msg(n, Wire.OverWire(Captured(0, stmt)))]],
                                    nodes := c.nodes[n := node]))
  {
    var c1 := WriteOnly(cfg, init, c, n, stmt);
    var c2 := PublishOnly(cfg, init, c1, n);
    assert c2.nodes == c.nodes[n := node];
  }

  /** Node `n` writes and publishes the change at once. */
  lemma Tell(cfg: Config, init: Tables, c: State, n: nat, stmt: Statement) returns (c': State)
    requires Reachable(cfg, init, c) && Waits(cfg, c, n) && Executable(cfg, c.nodes[n].db.tables, stmt)
    ensures Reachable(cfg, init, c') && OnlyNode(c, c', n) && Waits(cfg, c', n)
    ensures var s := cfg.route(EventKey(cfg.schema, Captured(0, stmt)));
            Told(cfg, c.nodes[n], c'.nodes[n], s, |c.logs[s]| + 1)
            && c'.nodes[n].db.tables == Execute(cfg.schema, c.nodes[n].db.tables, stmt)
            && c'.logs == c.logs[s := c.logs[s] + [Msg(n, Wire.OverWire(Captured(0, stmt)))]]
  {
    var s := cfg.route(EventKey(cfg.schema, Captured(0, stmt)));
    TellNode(cfg, c.nodes[n], stmt, s, |c.logs[s]| + 1);
    var node := AfterPublish(AfterWrite(cfg, c.nodes[n], 0, stmt), 0, true, cfg.snapshots, s, |c.logs[s]| + 1);
    TellReaches(cfg, init, c, n, stmt, s, node);
    c' := c.(logs := c.logs[s := c.logs[s] + [Msg(n, Wire.OverWire(Captured(0, stmt)))]], nodes := c.nodes[n := node]);
  }

  /** The streams hold `log` on shard `s` and nothing else, and have dropped nothing. */
  ghost predicate HoldsOnly(cfg: Config, c: State, s: nat, log: seq<Msg>) {
    |c.logs| == |c.first| == cfg.shards
    && forall u :: 0 <= u < cfg.shards ==> c.logs[u] == (if u == s then log else []) && c.first[u] == 1
  }

  lemma HoldsMore(cfg: Config, c: State, c': State, s: nat, log: seq<Msg>, msg: Msg)
    requires HoldsOnly(cfg, c, s, log) && s < cfg.shards && c'.first == c.first
    requires c'.logs == c.logs[s := c.logs[s] + [msg]]
    ensures HoldsOnly(cfg, c', s, log + [msg])
  {
  }

  /** Two nodes wait, and the streams hold `log` on shard `s` and nothing else. */
  ghost predicate Stage(cfg: Config, init: Tables, c: State, s: nat, log: seq<Msg>) {
    Reachable(cfg, init, c) && cfg.nodes >= 2 && Waits(cfg, c, 0) && Waits(cfg, c, 1) && HoldsOnly(cfg, c, s, log)
  }

  /** The node has the initial database and has not been delivered anything. */
  ghost predicate Untried(cfg: Config, init: Tables, node: Node) {
    node.db.tables == init && |node.seqMap| == |node.listeners| == cfg.shards
    && forall s :: 0 <= s < cfg.shards ==> node.seqMap[s] == 0 && SamePosition(FreshListener(0), node.listeners[s])
  }

  /** The first two nodes start. */
  lemma Boot(cfg: Config, init: Tables, s: nat) returns (c: State)
    requires WfConfig(cfg) && cfg.nodes >= 2
    ensures Stage(cfg, init, c, s, []) && Untried(cfg, init, c.nodes[0]) && Untried(cfg, init, c.nodes[1])
  {
    var c0 := Start(cfg, init);
    StartWf(cfg, init);
    assert Reached(cfg, init, [], c0);
    ReachOn(cfg, init, c0, Restart(0));
    var c1 := Do(cfg, c0, Restart(0));
    ReachOn(cfg, init, c1, Restart(1));
    c := Do(cfg, c1, Restart(1));
  }

  /** One of two nodes writes and publishes, to the only shard in use. */
  lemma TellOn(cfg: Config, init: Tables, c: State, log: seq<Msg>, n: nat, stmt: Statement) returns (c': State)
    requires n < 2 && n < |c.nodes| && Executable(cfg, c.nodes[n].db.tables, stmt)
    requires Stage(cfg, init, c, cfg.route(EventKey(cfg.schema, Captured(0, stmt))), log)
    ensures var s := cfg.route(EventKey(cfg.schema, Captured(0, stmt)));
            Stage(cfg, init, c', s, log + [Msg(n, Wire.OverWire(Captured(0, stmt)))])
            && Told(cfg, c.nodes[n], c'.nodes[n], s, |log| + 1) && c'.nodes[1 - n] == c.nodes[1 - n]
            && c'.nodes[n].db.tables == Execute(cfg.schema, c.nodes[n].db.tables, stmt)
  {
    var s := cfg.route(EventKey(cfg.schema, Captured(0, stmt)));
    c' := Tell(cfg, init, c, n, stmt);
    assert c'.nodes[1 - n] == c.nodes[1 - n];
    HoldsMore(cfg, c, c', s, log, Msg(n, Wire.OverWire(Captured(0, stmt))));
  }

  /** Node `n` takes its next message, applies it and saves. */
  lemma Take(cfg: Config, init: Tables, c: State, n: nat, s: nat, q: nat) returns (c': State)
    requires Reachable(cfg, init, c) && Waits(cfg, c, n) && s < cfg.shards && c.first[s] <= q <= |c.logs[s]|
    requires c.nodes[n].listeners[s].inflight == 0 && q == c.nodes[n].listeners[s].cursor + 1
    requires q > c.nodes[n].listeners[s].saved
    ensures Reachable(cfg, init, c') && OnlyNode(c, c', n) && c'.logs == c.logs && Waits(cfg, c', n)
    ensures Get(c'.nodes[n].db.tables, MsgKey(cfg.schema, c.logs[s][q - 1])) == After(c.logs[s][q - 1].event)
    ensures var l := c'.nodes[n].listeners[s];
            l.inflight == 0 && l.cursor == q && l.saved == c'.nodes[n].seqMap[s] == Max(c.nodes[n].seqMap[s], q)
  {
    var event := c.logs[s][q - 1].event;
    assert WfLog(cfg, s, c.logs[s]);
    ReplicateIsBlindWrite(cfg.schema, c.nodes[n].db.tables, event, EventKey(cfg.schema, event));
    ReachOn(cfg, init, c, Deliver(n, s, q));
    var c1 := Do(cfg, c, Deliver(n, s, q));
    ReachOn(cfg, init, c1, SaveSeq(n, s));
    c' := Do(cfg, c1, SaveSeq(n, s));
  }

  /** A run in which two settled nodes differ. */
  ghost predicate Diverges(cfg: Config, init: Tables, c: State) {
    Reachable(cfg, init, c) && cfg.nodes >= 2 && Settled(cfg, c, 0) && Settled(cfg, c, 1)
    && c.nodes[0].db.tables != c.nodes[1].db.tables
  }

  /** A row that two nodes hold differently, and that no message left to apply concerns, stays different. */
  lemma StaysDifferent(cfg: Config, init: Tables, c: State, key: RowKey)
    requires Reachable(cfg, init, c) && cfg.nodes >= 2 && Waits(cfg, c, 0) && Waits(cfg, c, 1)
    requires Ignores(cfg, c, 0, key) && Ignores(cfg, c, 1, key)
    requires Get(c.nodes[0].db.tables, key) != Get(c.nodes[1].db.tables, key)
    ensures exists c' :: Diverges(cfg, init, c')
  {
    LeadsSelf(cfg, c);
    var c1 := CatchUpNode(cfg, c, c, 0, 0);
    assert c1.nodes[1] == c.nodes[1];
    var c2 := CatchUpNode(cfg, c, c1, 1, 0);
    assert c2.nodes[0] == c1.nodes[0];
    QuietReaches(cfg, init, c, c2);
    assert Diverges(cfg, init, c2);
  }

  /** No retained message concerns the row under `key`. */
  ghost predicate Silent(cfg: Config, c: State, key: RowKey) {
    |c.logs| == |c.first| == cfg.shards
    && forall s :: 0 <= s < cfg.shards ==> Free(cfg.schema, c.logs[s], 0, c.first[s], key)
  }

  lemma HoldsSilent(cfg: Config, c: State, s: nat, log: seq<Msg>, key: RowKey)
    requires HoldsOnly(cfg, c, s, log) && forall i :: 0 <= i < |log| ==> MsgKey(cfg.schema, log[i]) != key
    ensures Silent(cfg, c, key)
  {
  }

  lemma DropSilent(cfg: Config, c: State, s: nat, log: seq<Msg>, key: RowKey)
    requires HoldsOnly(cfg, c, s, log) && s < cfg.shards && |log| == 2 && MsgKey(cfg.schema, log[1]) != key
    ensures Silent(cfg, c.(first := c.first[s := c.first[s] + 1]), key)
  {
  }

  /** A row that two nodes hold differently and that nobody has told of stays different. */
  lemma SilentDiffers(cfg: Config, init: Tables, c: State, key: RowKey)
    requires Reachable(cfg, init, c) && cfg.nodes >= 2 && Waits(cfg, c, 0) && Waits(cfg, c, 1) && Silent(cfg, c, key)
    requires Get(c.nodes[0].db.tables, key) != Get(c.nodes[1].db.tables, key)
    ensures exists c' :: Diverges(cfg, init, c')
  {
    StaysDifferent(cfg, init, c, key);
  }

  // ---------- the five runs ----------

  /** A failed publish marks the change published, and no other node ever hears of it. */
  lemma LossyPublishDiverges(cfg: Config, t: string)
    requires WfConfig(cfg) && cfg.nodes >= 2 && t in cfg.schema && cfg.lossyPublish
    ensures exists init, c :: Diverges(cfg, init, c)
  {
    var row := KeyRow(cfg, t, 0);
    PlainRowIsSafe(cfg, "insert", t, row, 0);
    var c0 := Boot(cfg, map[], 0);
    var c1 := WriteOnly(cfg, map[], c0, 0, Insert(t, row));
    ReachOn(cfg, map[], c1, PublishLost(0, 0));
    var c2 := Do(cfg, c1, PublishLost(0, 0));
    SilentDiffers(cfg, map[], c2, KeyOf(cfg.schema, t, row));
  }

  /** Among more numbers than values, two have the same value. */
  lemma {:induction false} Pigeonhole(f: nat -> nat, k: nat) returns (a: nat, b: nat)
    requires forall i :: 0 <= i <= k ==> f(i) < k
    ensures a < b <= k && f(a) == f(b)
    decreases k
  {
    assert f(0) < k;
    if i :| 0 <= i < k && f(i) == f(k) {
      a, b := i, k;
    } else {
      var g := (i: nat) => if f(i) == k - 1 then f(k) else f(i);
      a, b := Pigeonhole(g, k - 1);
    }
  }

  /** Two rows of a table with different keys in one shard. */
  lemma SameShardRows(cfg: Config, t: string) returns (x: Row, y: Row)
    requires WfConfig(cfg) && t in cfg.schema && KeyColumns(cfg.schema[t]) != {}
    ensures RowKey(t, x) != RowKey(t, y) && cfg.route(RowKey(t, x)) == cfg.route(RowKey(t, y))
    ensures (forall c :: c in x ==> x[c].Int?) && (forall c :: c in y ==> y[c].Int?)
    ensures KeyOf(cfg.schema, t, x) == RowKey(t, x) && KeyOf(cfg.schema, t, y) == RowKey(t, y)
  {
    var shardOf := (v: nat) => cfg.route(RowKey(t, KeyRow(cfg, t, v)));
    forall v: nat ensures shardOf(v) < cfg.shards {
      assert cfg.route(RowKey(t, KeyRow(cfg, t, v))) < cfg.shards;
    }
    var a, b := Pigeonhole(shardOf, cfg.shards);
    x, y := KeyRow(cfg, t, a), KeyRow(cfg, t, b);
    PlainKeyRowKey(cfg, t, a);
    PlainKeyRowKey(cfg, t, b);
    var column :| column in KeyColumns(cfg.schema[t]);
    assert x[column] != y[column];
  }

  /** One of two nodes inserts a row without times and publishes it. */
  lemma InsertOn(cfg: Config, c: State, log: seq<Msg>, n: nat, t: string, row: Row) returns (c': State)
    requires n < 2 && t in cfg.schema && (forall c :: c in row ==> row[c].Int?)
    requires Stage(cfg, map[], c, cfg.route(KeyOf(cfg.schema, t, row)), log)
    ensures Stage(cfg, map[], c', cfg.route(KeyOf(cfg.schema, t, row)), log + [Msg(n, Inserted(t, row))])
    ensures c'.nodes[n].db.tables == c.nodes[n].db.tables[KeyOf(cfg.schema, t, row) := row]
    ensures Told(cfg, c.nodes[n], c'.nodes[n], cfg.route(KeyOf(cfg.schema, t, row)), |log| + 1)
    ensures c'.nodes[1 - n] == c.nodes[1 - n]
  {
    PlainRowIsSafe(cfg, "insert", t, row, 0);
    c' := TellOn(cfg, map[], c, log, n, Insert(t, row));
  }

  /** The first two nodes start, and node `n` inserts and publishes a row. */
  lemma InsertFirst(cfg: Config, n: nat, t: string, row: Row) returns (c: State)
    requires WfConfig(cfg) && cfg.nodes >= 2 && n < 2 && t in cfg.schema && forall c :: c in row ==> row[c].Int?
    ensures Stage(cfg, map[], c, cfg.route(KeyOf(cfg.schema, t, row)), [Msg(n, Inserted(t, row))])
    ensures c.nodes[n].db.tables == map[KeyOf(cfg.schema, t, row) := row] && Untried(cfg, map[], c.nodes[1 - n])
    ensures cfg.snapshots ==> c.nodes[n].seqMap[cfg.route(KeyOf(cfg.schema, t, row))] == 1
    ensures SamePosition(FreshListener(0), c.nodes[n].listeners[cfg.route(KeyOf(cfg.schema, t, row))])
  {
    var c0 := Boot(cfg, map[], cfg.route(KeyOf(cfg.schema, t, row)));
    c := InsertOn(cfg, c0, [], n, t, row);
    assert c.nodes[1 - n] == c0.nodes[1 - n];
    assert [] + [Msg(n, Inserted(t, row))] == [Msg(n, Inserted(t, row))];
  }

  /** The first of two messages is dropped, and the other does not concern a row that differs. */
  lemma DropFirst(cfg: Config, init: Tables, c: State, s: nat, log: seq<Msg>, key: RowKey)
    requires Stage(cfg, init, c, s, log) && s < cfg.shards && cfg.earlyDiscard
    requires |log| == 2 && MsgKey(cfg.schema, log[1]) != key
    requires Get(c.nodes[0].db.tables, key) != Get(c.nodes[1].db.tables, key)
    ensures exists c' :: Diverges(cfg, init, c')
  {
    ReachOn(cfg, init, c, Discard(s));
    DropSilent(cfg, c, s, log, key);
    SilentDiffers(cfg, init, Do(cfg, c, Discard(s)), key);
  }

  /** Two rows of one shard are published, and the message of the first is dropped. */
  lemma DropRow(cfg: Config, t: string, x: Row, y: Row)
    requires WfConfig(cfg) && cfg.nodes >= 2 && t in cfg.schema && cfg.earlyDiscard
    requires (forall c :: c in x ==> x[c].Int?) && (forall c :: c in y ==> y[c].Int?)
    requires KeyOf(cfg.schema, t, x) != KeyOf(cfg.schema, t, y)
    requires cfg.route(KeyOf(cfg.schema, t, x)) == cfg.route(KeyOf(cfg.schema, t, y))
    ensures exists c :: Diverges(cfg, map[], c)
  {
    var a, b := Msg(0, Inserted(t, x)), Msg(0, Inserted(t, y));
    var c := InsertFirst(cfg, 0, t, x);
    var c' := InsertOn(cfg, c, [a], 0, t, y);
    assert c'.nodes[1] == c.nodes[1];
    DropFirst(cfg, map[], c', cfg.route(KeyOf(cfg.schema, t, y)), [a] + [b], KeyOf(cfg.schema, t, x));
  }

  /** The stream drops a message before the second node has it, and the second node misses its row. */
  lemma EarlyDiscardDiverges(cfg: Config, t: string)
    requires WfConfig(cfg) && cfg.nodes >= 2 && t in cfg.schema && KeyColumns(cfg.schema[t]) != {} && cfg.earlyDiscard
    ensures exists init, c :: Diverges(cfg, init, c)
  {
    var x, y := SameShardRows(cfg, t);
    DropRow(cfg, t, x, y);
  }

  /** The first two nodes start, and node 0 publishes a change. */
  lemma TellFirst(cfg: Config, init: Tables, stmt: Statement) returns (c: State)
    requires WfConfig(cfg) && cfg.nodes >= 2 && Executable(cfg, init, stmt)
    ensures Stage(cfg, init, c, cfg.route(EventKey(cfg.schema, Captured(0, stmt))),
                  [Msg(0, Wire.OverWire(Captured(0, stmt)))])
    ensures c.nodes[0].db.tables == Execute(cfg.schema, init, stmt) && c.nodes[1].db.tables == init
  {
    var c0 := Boot(cfg, init, cfg.route(EventKey(cfg.schema, Captured(0, stmt))));
    c := TellOn(cfg, init, c0, [], 0, stmt);
    assert c.nodes[1] == c0.nodes[1];
    assert [] + [Msg(0, Wire.OverWire(Captured(0, stmt)))] == [Msg(0, Wire.OverWire(Captured(0, stmt)))];
  }

  /** Node 0 publishes one change, and what other nodes hold under `key` is of no concern to it. */
  lemma TellOne(cfg: Config, init: Tables, stmt: Statement, key: RowKey)
    requires WfConfig(cfg) && cfg.nodes >= 2 && Executable(cfg, init, stmt)
    requires EventKey(cfg.schema, Wire.OverWire(Captured(0, stmt))) != key
    requires Get(Execute(cfg.schema, init, stmt), key) != Get(init, key)
    ensures exists c :: Diverges(cfg, init, c)
  {
    var msg := Msg(0, Wire.OverWire(Captured(0, stmt)));
    var c1 := TellFirst(cfg, init, stmt);
    HoldsSilent(cfg, c1, cfg.route(EventKey(cfg.schema, Captured(0, stmt))), [msg], key);
    SilentDiffers(cfg, init, c1, key);
  }

  /** An update that moves a row to another key leaves the old row on every other node. */
  lemma KeyUpdateDiverges(cfg: Config, t: string)
    requires WfConfig(cfg) && cfg.nodes >= 2 && t in cfg.schema && KeyColumns(cfg.schema[t]) != {} && cfg.keyUpdates
    ensures exists init, c :: Diverges(cfg, init, c)
  {
    var before, after := KeyRow(cfg, t, 0), KeyRow(cfg, t, 1);
    PlainRowIsSafe(cfg, "update", t, after, 0);
    PlainKeyRowKey(cfg, t, 0);
    PlainKeyRowKey(cfg, t, 1);
    var column :| column in KeyColumns(cfg.schema[t]);
    assert before[column] != after[column];
    TellOne(cfg, map[RowKey(t, before) := before], Update(t, before, after), RowKey(t, before));
  }

  /** The row whose key columns all hold the same instant. */
  function TimeRow(cfg: Config, t: string, nanos: int): Row {
    map c | c in KeysOf(cfg, t) :: Time(nanos)
  }

  lemma TimeRowKey(cfg: Config, t: string, nanos: int)
    requires t in cfg.schema
    ensures KeyOf(cfg.schema, t, TimeRow(cfg, t, nanos)) == RowKey(t, TimeRow(cfg, t, nanos))
  {
  }

  /** The fraction of a second is lost on the wire. */
  lemma TimeRowSent(cfg: Config, t: string)
    requires t in cfg.schema
    ensures Wire.OverWire(Inserted(t, TimeRow(cfg, t, 1))) == Inserted(t, TimeRow(cfg, t, 0))
  {
  }

  /** A key that changes on the wire comes back as a second row, on its own node only. */
  lemma FractionalKeyDiverges(cfg: Config, t: string)
    requires WfConfig(cfg) && cfg.nodes >= 2 && t in cfg.schema && KeyColumns(cfg.schema[t]) != {} && cfg.fractionalKeys
    ensures exists init, c :: Diverges(cfg, init, c)
  {
    var row := TimeRow(cfg, t, 1);
    TimeRowSent(cfg, t);
    TimeRowKey(cfg, t, 0);
    TimeRowKey(cfg, t, 1);
    var column :| column in KeyColumns(cfg.schema[t]);
    assert TimeRow(cfg, t, 0)[column] != row[column];
    TellOne(cfg, map[], Insert(t, row), RowKey(t, row));
  }

  /** Two nodes have inserted different rows under one key, each moving its saved sequence by publishing. */
  ghost predicate Raced(cfg: Config, t: string, theirs: Row, ours: Row, c: State) {
    var s := cfg.route(KeyOf(cfg.schema, t, ours));
    && Stage(cfg, map[], c, s, [Msg(1, Inserted(t, theirs)), Msg(0, Inserted(t, ours))]) && s < cfg.shards
    && SamePosition(FreshListener(0), c.nodes[0].listeners[s]) && c.nodes[0].seqMap[s] == 2
    && SamePosition(FreshListener(0), c.nodes[1].listeners[s]) && c.nodes[1].seqMap[s] == 1
  }

  lemma Race(cfg: Config, t: string, theirs: Row, ours: Row) returns (c: State)
    requires WfConfig(cfg) && cfg.nodes >= 2 && t in cfg.schema && cfg.snapshots
    requires KeyOf(cfg.schema, t, theirs) == KeyOf(cfg.schema, t, ours)
    requires (forall c :: c in theirs ==> theirs[c].Int?) && (forall c :: c in ours ==> ours[c].Int?)
    ensures Raced(cfg, t, theirs, ours, c)
  {
    var c1 := InsertFirst(cfg, 1, t, theirs);
    c := InsertOn(cfg, c1, [Msg(1, Inserted(t, theirs))], 0, t, ours);
  }

  /** The first node takes the other's message, and the second node takes both. */
  lemma TakeAll(cfg: Config, t: string, theirs: Row, ours: Row, c: State) returns (c': State)
    requires Raced(cfg, t, theirs, ours, c) && KeyOf(cfg.schema, t, theirs) == KeyOf(cfg.schema, t, ours)
    ensures Reachable(cfg, map[], c') && Waits(cfg, c', 0) && Waits(cfg, c', 1) && c'.logs == c.logs
    ensures var s := cfg.route(KeyOf(cfg.schema, t, ours));
            c'.nodes[0].listeners[s].saved == c'.nodes[1].listeners[s].saved == 2
    ensures Get(c'.nodes[0].db.tables, KeyOf(cfg.schema, t, ours)) == Some(theirs)
    ensures Get(c'.nodes[1].db.tables, KeyOf(cfg.schema, t, ours)) == Some(ours)
  {
    var s := cfg.route(KeyOf(cfg.schema, t, ours));
    var c1 := Take(cfg, map[], c, 0, s, 1);
    assert c1.nodes[1] == c.nodes[1];
    var c2 := Take(cfg, map[], c1, 1, s, 1);
    c' := Take(cfg, map[], c2, 1, s, 2);
    assert c'.nodes[0] == c1.nodes[0];
  }

  /**
   With snapshots enabled a node's own publish moves its saved sequence past messages of other
   nodes: the listener reads the moved value back when it next saves, and passes its own later
   message over although an older one has just overwritten the row.
   */
  lemma SnapshotsDiverge(cfg: Config, t: string, extra: string)
    requires WfConfig(cfg) && cfg.nodes >= 2 && t in cfg.schema && extra !in KeyColumns(cfg.schema[t]) && cfg.snapshots
    ensures exists init, c :: Diverges(cfg, init, c)
  {
    var theirs, ours := KeyRow(cfg, t, 0), KeyRow(cfg, t, 0) + map[extra := Int(1)];
    assert extra in ours && extra !in theirs;
    PlainKeyRowKey(cfg, t, 0);
    KeyRowKey(cfg, t, 0, map[extra := Int(1)]);
    var c := Race(cfg, t, theirs, ours);
    var c' := TakeAll(cfg, t, theirs, ours, c);
    StaysDifferent(cfg, map[], c', RowKey(t, theirs));
  }

  /**
   Runs converge exactly when snapshots are disabled, no publish fails, updates keep primary keys,
   key values survive the wire and streams keep what some node still needs.
   */
  lemma ConvergenceExactly(cfg: Config, t: string, extra: string)
    requires WfConfig(cfg) && cfg.nodes >= 2
    requires t in cfg.schema && KeyColumns(cfg.schema[t]) != {} && extra !in KeyColumns(cfg.schema[t])
    ensures Convergent(cfg) <==> Faultless(cfg)
  {
    if Faultless(cfg) {
      FaultlessConverges(cfg);
    } else {
      if cfg.lossyPublish {
        LossyPublishDiverges(cfg, t);
      } else if cfg.earlyDiscard {
        EarlyDiscardDiverges(cfg, t);
      } else if cfg.keyUpdates {
        KeyUpdateDiverges(cfg, t);
      } else if cfg.fractionalKeys {
        FractionalKeyDiverges(cfg, t);
      } else {
        SnapshotsDiverge(cfg, t, extra);
      }
      var init, c :| Diverges(cfg, init, c);
    }
  }
}
