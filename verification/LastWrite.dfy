/**
 What the replicas make of one local write: captured, published and applied, a statement leaves on
 every node the row it left where it was made, up to the precision of times on the wire.
 */
module LastWrite {
  import opened Wrappers
  import opened Runs
  import opened Rows
  import opened Replay
  import opened Cluster
  import opened Coverage
  import opened Convergence
  import opened Progress
  import Wire

  // ---------- one statement ----------

  /** The key of the row a statement leaves behind or removes. */
  function KeyWritten(schema: Schema, stmt: Statement): RowKey {
    match stmt
    case Insert(t, row) => KeyOf(schema, t, row)
    case Update(t, _, newRow) => KeyOf(schema, t, newRow)
    case Delete(t, oldRow) => KeyOf(schema, t, oldRow)
  }

  /** The row a statement leaves under that key, if any. */
  function Wrote(stmt: Statement): Option<Row> {
    match stmt
    case Insert(_, row) => Some(row)
    case Update(_, _, newRow) => Some(newRow)
    case Delete(_, _) => None
  }

  /**
   A statement leaves its row under its key, nothing under the old key of an update that moves the
   row, and every other row as it was.
   */
  lemma ExecuteLeaves(schema: Schema, tables: Tables, stmt: Statement, key: RowKey)
    ensures Get(Execute(schema, tables, stmt), key)
         == if key == KeyWritten(schema, stmt) then Wrote(stmt)
            else if stmt.Update? && key == KeyOf(schema, stmt.table, stmt.oldRow) then None
            else Get(tables, key)
  {
  }

  /** A row with its times cut to the second. */
  function Cut(row: Option<Row>): Option<Row> {
    match row
    case None => None
    case Some(r) =>
      Some(map c | c in r :: if r[c].Time? then Time(r[c].nanos - r[c].nanos % 1_000_000_000) else r[c])
  }

  /** What a statement leaves under its key, as it goes over the wire. */
  function Left(stmt: Statement): Option<Row> {
    Cut(Wrote(stmt))
  }

  /** The captured change of a statement changes nothing where the statement was made. */
  lemma WriteComesBack(schema: Schema, tables: Tables, id: int, stmt: Statement)
    requires stmt.table in schema
    ensures Replicate(schema, Execute(schema, tables, stmt), Captured(id, stmt))
         == Success(Execute(schema, tables, stmt))
  {
    assert Replicate(schema, Execute(schema, tables, stmt), Captured(id, stmt)).value == Execute(schema, tables, stmt);
  }

  /** Applied to any database, the captured change leaves the row that the statement left in any other. */
  lemma CapturedIsWrite(schema: Schema, a: Tables, b: Tables, id: int, stmt: Statement)
    requires stmt.table in schema
    ensures var r := Replicate(schema, b, Captured(id, stmt));
            && r.Success?
            && Get(r.value, KeyWritten(schema, stmt)) == Get(Execute(schema, a, stmt), KeyWritten(schema, stmt))
  {
  }

  /** The same over the wire, for keys that survive it: the row arrives with its times cut to the second. */
  lemma SentIsWrite(schema: Schema, tables: Tables, id: int, stmt: Statement)
    requires WireSafe(schema, Captured(id, stmt))
    ensures var sent, key := Wire.OverWire(Captured(id, stmt)), KeyWritten(schema, stmt);
            && EventKey(schema, sent) == key && After(sent) == Left(stmt)
            && Replicate(schema, tables, sent).Success?
            && Get(Replicate(schema, tables, sent).value, key) == Left(stmt)
  {
    var event := Captured(id, stmt);
    PublishedMessage(Config(0, 0, schema, _ => 0, false, false, false, false, false), 0, event);
    ReplicateIsBlindWrite(schema, tables, Wire.OverWire(event), KeyWritten(schema, stmt));
    Wire.WireRoundTrip(event);
    CutOnWire(event);
  }

  lemma CutOnWire(event: Event)
    ensures Some(Wire.OverWire(event).row) == Cut(Some(event.row))
  {
    assert Wire.OverWire(event).row == Cut(Some(event.row)).value;
  }

  // ---------- the row under one key ----------

  /** Every change to the key that waits in a queue would leave `row` there. */
  ghost predicate QueueAgrees(cfg: Config, queue: seq<Event>, key: RowKey, row: Option<Row>) {
    forall i :: 0 <= i < |queue| && EventKey(cfg.schema, queue[i]) == key ==> After(Wire.OverWire(queue[i])) == row
  }

  ghost predicate Agreed(cfg: Config, c: State, key: RowKey, row: Option<Row>) {
    forall n :: 0 <= n < |c.nodes| ==> QueueAgrees(cfg, c.nodes[n].queue, key, row)
  }

  /** Some node has yet to publish a change to the key. */
  ghost predicate Waiting(cfg: Config, c: State, key: RowKey) {
    exists n :: 0 <= n < |c.nodes| && HasKey(cfg, c.nodes[n].queue, key)
  }

  /** The last message on the key leaves `row` there. */
  ghost predicate Landed(cfg: Config, init: Tables, c: State, key: RowKey, row: Option<Row>) {
    cfg.route(key) < |c.logs| && RowAfter(cfg.schema, c.logs[cfg.route(key)], key, Get(init, key)) == row
  }

  /** Whatever the nodes publish from now on, `row` is what remains. */
  ghost predicate Told(cfg: Config, init: Tables, c: State, key: RowKey, row: Option<Row>) {
    Agreed(cfg, c, key, row) && (Waiting(cfg, c, key) || Landed(cfg, init, c, key, row))
  }

  predicate Writes(cfg: Config, step: Step, key: RowKey) {
    step.LocalWrite? && KeyWritten(cfg.schema, step.stmt) == key
  }

  lemma PublishLands(cfg: Config, init: Tables, c: State, n: nat, i: nat, marked: bool, stored: bool, key: RowKey)
    requires Replicable(cfg) && Wf(cfg, c) && Enabled(cfg, c, Publish(n, i, marked, stored))
    ensures var event, c' := c.nodes[n].queue[i], Do(cfg, c, Publish(n, i, marked, stored));
            RowAfter(cfg.schema, c'.logs[cfg.route(key)], key, Get(init, key))
            == if EventKey(cfg.schema, event) == key then After(Wire.OverWire(event))
               else RowAfter(cfg.schema, c.logs[cfg.route(key)], key, Get(init, key))
  {
    var event := c.nodes[n].queue[i];
    PublishedMessage(cfg, n, event);
    var log := c.logs[cfg.route(key)];
    assert (log + [Msg(n, Wire.OverWire(event))])[..|log|] == log;
  }

  /** A queue after publishing its change `i`. */
  lemma QueueAfterPublish(cfg: Config, queue: seq<Event>, i: nat, marked: bool, key: RowKey, row: Option<Row>)
    requires i < |queue|
    ensures var queue' := if marked then Remove(queue, i) else queue;
            && (QueueAgrees(cfg, queue, key, row) ==> QueueAgrees(cfg, queue', key, row))
            && (HasKey(cfg, queue, key) && EventKey(cfg.schema, queue[i]) != key ==> HasKey(cfg, queue', key))
  {
    if marked && HasKey(cfg, queue, key) && EventKey(cfg.schema, queue[i]) != key {
      var j :| 0 <= j < |queue| && EventKey(cfg.schema, queue[j]) == key;
      assert Remove(queue, i)[if j < i then j else j - 1] == queue[j];
    }
  }

  lemma ToldCarries(cfg: Config, init: Tables, c: State, c': State, key: RowKey, row: Option<Row>)
    requires Told(cfg, init, c, key, row) && |c'.nodes| == |c.nodes|
    requires forall m :: 0 <= m < |c.nodes| && QueueAgrees(cfg, c.nodes[m].queue, key, row) ==>
               QueueAgrees(cfg, c'.nodes[m].queue, key, row)
    requires Landed(cfg, init, c, key, row) ==> Landed(cfg, init, c', key, row)
    requires || Landed(cfg, init, c', key, row)
             || forall m :: 0 <= m < |c.nodes| && HasKey(cfg, c.nodes[m].queue, key) ==>
                  HasKey(cfg, c'.nodes[m].queue, key)
    ensures Told(cfg, init, c', key, row)
  {
  }

  /** What publishing change `i` does to the queues. */
  lemma PublishQueues(cfg: Config, c: State, n: nat, i: nat, marked: bool, stored: bool)
    requires Wf(cfg, c) && Enabled(cfg, c, Publish(n, i, marked, stored))
    ensures var c', queue := Do(cfg, c, Publish(n, i, marked, stored)), c.nodes[n].queue;
            && |c'.nodes| == |c.nodes| && |c'.logs| == |c.logs|
            && c'.nodes[n].queue == (if marked then Remove(queue, i) else queue)
            && forall m :: 0 <= m < |c.nodes| && m != n ==> c'.nodes[m].queue == c.nodes[m].queue
  {
  }

  lemma PublishedTold(cfg: Config, init: Tables, c: State, c': State, n: nat, i: nat, marked: bool,
                      key: RowKey, row: Option<Row>)
    requires Told(cfg, init, c, key, row) && n < |c.nodes| == |c'.nodes| && i < |c.nodes[n].queue|
    requires c'.nodes[n].queue == if marked then Remove(c.nodes[n].queue, i) else c.nodes[n].queue
    requires forall m :: 0 <= m < |c.nodes| && m != n ==> c'.nodes[m].queue == c.nodes[m].queue
    requires cfg.route(key) < |c.logs| == |c'.logs|
    requires RowAfter(cfg.schema, c'.logs[cfg.route(key)], key, Get(init, key))
          == if EventKey(cfg.schema, c.nodes[n].queue[i]) == key then After(Wire.OverWire(c.nodes[n].queue[i]))
             else RowAfter(cfg.schema, c.logs[cfg.route(key)], key, Get(init, key))
    ensures Told(cfg, init, c', key, row)
  {
    QueueAfterPublish(cfg, c.nodes[n].queue, i, marked, key, row);
    assert QueueAgrees(cfg, c.nodes[n].queue, key, row);
    ToldCarries(cfg, init, c, c', key, row);
  }

  lemma PublishKeepsTold(cfg: Config, init: Tables, c: State, step: Step, key: RowKey, row: Option<Row>)
    requires Replicable(cfg) && Wf(cfg, c) && step.Publish? && Enabled(cfg, c, step) && Told(cfg, init, c, key, row)
    ensures Told(cfg, init, Do(cfg, c, step), key, row)
  {
    PublishLands(cfg, init, c, step.n, step.i, step.marked, step.stored, key);
    PublishQueues(cfg, c, step.n, step.i, step.marked, step.stored);
    PublishedTold(cfg, init, c, Do(cfg, c, step), step.n, step.i, step.marked, key, row);
  }

  /** What a write does to the queues. */
  lemma WriteQueues(cfg: Config, c: State, n: nat, id: int, stmt: Statement)
    requires Wf(cfg, c) && Enabled(cfg, c, LocalWrite(n, id, stmt))
    ensures var c' := Do(cfg, c, LocalWrite(n, id, stmt));
            && |c'.nodes| == |c.nodes| && c'.logs == c.logs
            && c'.nodes[n].queue == c.nodes[n].queue + [Captured(id, stmt)]
            && forall m :: 0 <= m < |c.nodes| && m != n ==> c'.nodes[m].queue == c.nodes[m].queue
  {
  }

  lemma QueueAfterWrite(cfg: Config, queue: seq<Event>, event: Event, key: RowKey, row: Option<Row>)
    requires EventKey(cfg.schema, event) != key
    ensures QueueAgrees(cfg, queue, key, row) ==> QueueAgrees(cfg, queue + [event], key, row)
    ensures HasKey(cfg, queue, key) ==> HasKey(cfg, queue + [event], key)
  {
    if HasKey(cfg, queue, key) {
      var i :| 0 <= i < |queue| && EventKey(cfg.schema, queue[i]) == key;
      assert (queue + [event])[i] == queue[i];
    }
  }

  lemma WriteKeepsTold(cfg: Config, init: Tables, c: State, step: Step, key: RowKey, row: Option<Row>)
    requires Wf(cfg, c) && step.LocalWrite? && Enabled(cfg, c, step) && Told(cfg, init, c, key, row)
    requires !Writes(cfg, step, key)
    ensures Told(cfg, init, Do(cfg, c, step), key, row)
  {
    WriteQueues(cfg, c, step.n, step.id, step.stmt);
    QueueAfterWrite(cfg, c.nodes[step.n].queue, Captured(step.id, step.stmt), key, row);
    ToldCarries(cfg, init, c, Do(cfg, c, step), key, row);
  }

  lemma OtherQueues(cfg: Config, c: State, step: Step)
    requires Wf(cfg, c) && LeavesQueues(step) && Enabled(cfg, c, step)
    ensures var c' := Do(cfg, c, step);
            && |c'.nodes| == |c.nodes| && c'.logs == c.logs
            && forall m :: 0 <= m < |c.nodes| ==> c'.nodes[m].queue == c.nodes[m].queue
  {
  }

  lemma OtherKeepsTold(cfg: Config, init: Tables, c: State, step: Step, key: RowKey, row: Option<Row>)
    requires Wf(cfg, c) && LeavesQueues(step) && Enabled(cfg, c, step) && Told(cfg, init, c, key, row)
    ensures Told(cfg, init, Do(cfg, c, step), key, row)
  {
    OtherQueues(cfg, c, step);
    ToldCarries(cfg, init, c, Do(cfg, c, step), key, row);
  }

  /** Steps that do not write the key. */
  ghost function OthersNext(cfg: Config, key: RowKey): (State, Step) -> Option<State> {
    (c, step) =>
      if Wf(cfg, c) && Enabled(cfg, c, step) && !Writes(cfg, step, key) then Some(Do(cfg, c, step)) else None
  }

  lemma {:induction false} RunKeepsTold(
      cfg: Config, init: Tables, c0: State, steps: seq<Step>, c: State, key: RowKey, row: Option<Row>)
    requires Faultless(cfg) && Path(OthersNext(cfg, key), c0, steps, c) && Told(cfg, init, c0, key, row)
    ensures Told(cfg, init, c, key, row)
    decreases |steps|
  {
    if |steps| == 0 {
    } else {
      var step := steps[0];
      if step.Publish? {
        PublishKeepsTold(cfg, init, c0, step, key, row);
      } else if step.LocalWrite? {
        WriteKeepsTold(cfg, init, c0, step, key, row);
      } else {
        OtherKeepsTold(cfg, init, c0, step, key, row);
      }
      RunKeepsTold(cfg, init, Do(cfg, c0, step), steps[1..], c, key, row);
    }
  }

  // ---------- what remains of a write ----------

  ghost predicate AllHold(c: State, key: RowKey, row: Option<Row>) {
    forall m :: 0 <= m < |c.nodes| ==> Get(c.nodes[m].db.tables, key) == row
  }

  /** Whenever all nodes are settled and nobody has written the key since, all nodes hold `row` under it. */
  ghost predicate Remains(cfg: Config, c: State, key: RowKey, row: Option<Row>) {
    forall steps, c' :: Path(OthersNext(cfg, key), c, steps, c') && Wf(cfg, c') && SettledUpTo(cfg, c', cfg.nodes) ==>
      AllHold(c', key, row)
  }

  lemma WriteTells(cfg: Config, init: Tables, c: State, n: nat, id: int, stmt: Statement)
    requires Replicable(cfg) && Wf(cfg, c) && Enabled(cfg, c, LocalWrite(n, id, stmt))
    requires Agreed(cfg, c, KeyWritten(cfg.schema, stmt), Left(stmt))
    ensures Told(cfg, init, Do(cfg, c, LocalWrite(n, id, stmt)),
                 KeyWritten(cfg.schema, stmt), Left(stmt))
  {
    var c', key := Do(cfg, c, LocalWrite(n, id, stmt)), KeyWritten(cfg.schema, stmt);
    var row := Left(stmt);
    CapturedApplicable(cfg, id, stmt);
    SentIsWrite(cfg.schema, c.nodes[n].db.tables, id, stmt);
    assert QueueAgrees(cfg, c.nodes[n].queue, key, row);
    assert c'.nodes[n].queue[|c.nodes[n].queue|] == Captured(id, stmt);
    forall m | 0 <= m < |c'.nodes| ensures QueueAgrees(cfg, c'.nodes[m].queue, key, row) {
      assert QueueAgrees(cfg, c.nodes[m].queue, key, row);
    }
    assert HasKey(cfg, c'.nodes[n].queue, key);
  }

  lemma SettledHasLanded(cfg: Config, init: Tables, c: State, key: RowKey, row: Option<Row>)
    requires Sound(cfg, init, c) && SettledUpTo(cfg, c, cfg.nodes)
    ensures Told(cfg, init, c, key, row) ==> Landed(cfg, init, c, key, row)
    ensures Landed(cfg, init, c, key, row) ==> AllHold(c, key, row)
  {
    forall m | 0 <= m < |c.nodes|
      ensures !HasKey(cfg, c.nodes[m].queue, key)
      ensures Landed(cfg, init, c, key, row) ==> Get(c.nodes[m].db.tables, key) == row
    {
      assert Settled(cfg, c, m);
      SoundSettles(cfg, init, c, m);
    }
  }

  lemma ToldRemains(cfg: Config, init: Tables, c: State, key: RowKey, row: Option<Row>)
    requires Faultless(cfg) && Sound(cfg, init, c) && Told(cfg, init, c, key, row)
    ensures Remains(cfg, c, key, row)
  {
    forall steps, c' | Path(OthersNext(cfg, key), c, steps, c') && Wf(cfg, c') && SettledUpTo(cfg, c', cfg.nodes)
      ensures AllHold(c', key, row)
    {
      RunKeepsTold(cfg, init, c, steps, c', key, row);
      PathWiden(OthersNext(cfg, key), Next(cfg), c, steps, c');
      RunKeepsSound(cfg, init, c, steps, c');
      SettledHasLanded(cfg, init, c', key, row);
    }
  }

  // ---------- an older change that is published last ----------

  lemma PublishAt(cfg: Config, c0: State, c: State, n: nat, i: nat) returns (c': State)
    requires !cfg.snapshots && Leads(cfg, c0, c) && n < cfg.nodes && c.nodes[n].up && i < |c.nodes[n].queue|
    ensures Leads(cfg, c0, c') && OnlyNode(c, c', n)
    ensures c'.nodes[n].up && c'.nodes[n].queue == Remove(c.nodes[n].queue, i)
    ensures Enabled(cfg, c, Publish(n, i, true, false)) && c' == Do(cfg, c, Publish(n, i, true, false))
  {
    LeadsOn(cfg, c0, c, Publish(n, i, true, false));
    c' := Do(cfg, c, Publish(n, i, true, false));
  }

  /** A node publishes everything but its change `i`. */
  lemma KeepBack(cfg: Config, c0: State, c: State, n: nat, i: nat) returns (c': State)
    requires !cfg.snapshots && Leads(cfg, c0, c) && n < cfg.nodes && c.nodes[n].up && i < |c.nodes[n].queue|
    ensures Leads(cfg, c0, c') && OnlyNode(c, c', n)
    ensures c'.nodes[n].up && c'.nodes[n].queue == [c.nodes[n].queue[i]]
    decreases |c.nodes[n].queue|
  {
    var queue := c.nodes[n].queue;
    if |queue| == 1 {
      c' := c;
      assert queue == [queue[i]];
    } else {
      var j := if i == 0 then 1 else 0;
      var c1 := PublishAt(cfg, c0, c, n, j);
      var k: nat := if i == 0 then 0 else i - 1;
      assert c1.nodes[n].queue[k] == queue[i];
      c' := KeepBack(cfg, c0, c1, n, k);
    }
  }

  /** All nodes but `m` publish everything. */
  lemma DrainOthers(cfg: Config, init: Tables, c0: State, c: State, done: nat, m: nat) returns (c': State)
    requires Replicable(cfg) && Steady(cfg, init, c0) && Leads(cfg, c0, c) && AllUp(c)
    requires done <= cfg.nodes && m < cfg.nodes
    requires forall n :: 0 <= n < done && n != m ==> c.nodes[n].queue == []
    ensures Leads(cfg, c0, c') && AllUp(c') && c'.nodes[m].queue == c.nodes[m].queue
    ensures forall n :: 0 <= n < cfg.nodes && n != m ==> c'.nodes[n].queue == []
    decreases cfg.nodes - done
  {
    if done == cfg.nodes {
      c' := c;
    } else if done == m {
      c' := DrainOthers(cfg, init, c0, c, done + 1, m);
    } else {
      var c1 := DrainNode(cfg, init, c0, c, done);
      assert forall n :: 0 <= n < cfg.nodes && n != done ==> c1.nodes[n] == c.nodes[n];
      c' := DrainOthers(cfg, init, c0, c1, done + 1, m);
    }
  }

  /** Change `i` of node `m` is published after everything else. */
  lemma PublishedLast(cfg: Config, init: Tables, c: State, m: nat, i: nat, key: RowKey) returns (c': State)
    requires Faultless(cfg) && Steady(cfg, init, c) && m < cfg.nodes && i < |c.nodes[m].queue|
    requires EventKey(cfg.schema, c.nodes[m].queue[i]) == key
    ensures Leads(cfg, c, c') && Drained(c') && Landed(cfg, init, c', key, After(Wire.OverWire(c.nodes[m].queue[i])))
  {
    LeadsSelf(cfg, c);
    var c1 := StartAll(cfg, c, c, 0);
    var c2 := DrainOthers(cfg, init, c, c1, 0, m);
    var c3 := KeepBack(cfg, c, c2, m, i);
    c' := PublishAt(cfg, c, c3, m, 0);
    PublishLands(cfg, init, c3, m, 0, true, false, key);
    forall n | 0 <= n < |c'.nodes| ensures c'.nodes[n].up && c'.nodes[n].queue == [] {
      if n != m {
        assert c'.nodes[n] == c2.nodes[n];
      }
    }
  }

  lemma LeadsOthers(cfg: Config, c0: State, c: State, key: RowKey) returns (steps: seq<Step>)
    requires Leads(cfg, c0, c)
    ensures Path(OthersNext(cfg, key), c0, steps, c)
  {
    steps :| QuietRun(cfg, c0, steps, c);
    PathWiden(QuietNext(cfg), OthersNext(cfg, key), c0, steps, c);
  }

  /** A waiting change to the key may be the one that remains. */
  lemma WaitingMayRemain(cfg: Config, init: Tables, c: State, m: nat, i: nat, key: RowKey, row: Option<Row>)
    requires Faultless(cfg) && Sound(cfg, init, c) && m < cfg.nodes && i < |c.nodes[m].queue|
    requires EventKey(cfg.schema, c.nodes[m].queue[i]) == key && After(Wire.OverWire(c.nodes[m].queue[i])) != row
    ensures !Remains(cfg, c, key, row)
  {
    SoundIsSteady(cfg, init, c);
    var other := After(Wire.OverWire(c.nodes[m].queue[i]));
    var c1 := PublishedLast(cfg, init, c, m, i, key);
    LeadsSteady(cfg, init, c, c1);
    forall n | 0 <= n < cfg.nodes ensures Loaded(cfg, c1, n) {
      SteadyIsLoaded(cfg, init, c1, n);
    }
    var c2 := CatchUpAll(cfg, c, c1, 0);
    LeadsSteady(cfg, init, c, c2);
    SteadySettles(cfg, init, c2, m);
    var steps := LeadsOthers(cfg, c, c2, key);
    assert Get(c2.nodes[m].db.tables, key) == other;
  }

  /** A waiting change that would leave another row. */
  lemma Differs(cfg: Config, c: State, key: RowKey, row: Option<Row>) returns (m: nat, i: nat)
    requires !Agreed(cfg, c, key, row)
    ensures m < |c.nodes| && i < |c.nodes[m].queue|
    ensures EventKey(cfg.schema, c.nodes[m].queue[i]) == key && After(Wire.OverWire(c.nodes[m].queue[i])) != row
  {
    m :| 0 <= m < |c.nodes| && !QueueAgrees(cfg, c.nodes[m].queue, key, row);
    i :| 0 <= i < |c.nodes[m].queue| && EventKey(cfg.schema, c.nodes[m].queue[i]) == key
         && After(Wire.OverWire(c.nodes[m].queue[i])) != row;
  }

  /** A waiting change still waits after a write. */
  lemma StillWaits(cfg: Config, c: State, n: nat, id: int, stmt: Statement, m: nat, i: nat)
    requires Wf(cfg, c) && Enabled(cfg, c, LocalWrite(n, id, stmt)) && m < |c.nodes| && i < |c.nodes[m].queue|
    ensures var c' := Do(cfg, c, LocalWrite(n, id, stmt));
            m < |c'.nodes| && i < |c'.nodes[m].queue| && c'.nodes[m].queue[i] == c.nodes[m].queue[i]
  {
  }

  /**
   Last write wins, exactly: in a fault-free run a local write is what every node holds under its
   key, whenever all nodes are settled and nobody has written the key since, if and only if every
   change to the key that is still waiting at the time of the write, on whatever node, leaves the
   same row. An insert or update remains as the row it wrote, a delete as no row.
   */
  lemma LastWriteExactly(cfg: Config, init: Tables, before: seq<Step>, c: State, n: nat, id: int, stmt: Statement)
    requires Faultless(cfg) && WfConfig(cfg) && IsRun(cfg, Start(cfg, init), before, c)
    requires Wf(cfg, c) && Enabled(cfg, c, LocalWrite(n, id, stmt))
    ensures var key, row := KeyWritten(cfg.schema, stmt), Left(stmt);
            Remains(cfg, Do(cfg, c, LocalWrite(n, id, stmt)), key, row) <==> Agreed(cfg, c, key, row)
  {
    var key, row := KeyWritten(cfg.schema, stmt), Left(stmt);
    var c' := Do(cfg, c, LocalWrite(n, id, stmt));
    StartSound(cfg, init);
    RunKeepsSound(cfg, init, Start(cfg, init), before, c);
    StepKeepsSound(cfg, init, c, LocalWrite(n, id, stmt));
    if Agreed(cfg, c, key, row) {
      WriteTells(cfg, init, c, n, id, stmt);
      ToldRemains(cfg, init, c', key, row);
    } else {
      var m, i := Differs(cfg, c, key, row);
      StillWaits(cfg, c, n, id, stmt, m, i);
      WaitingMayRemain(cfg, init, c', m, i, key, row);
    }
  }

  /**
   A write to a row of which no change is waiting gets everywhere: the system can finish by itself,
   and then every node holds what the write left, its times cut to the second.
   */
  lemma WriteReachesAll(cfg: Config, init: Tables, before: seq<Step>, c: State, n: nat, id: int, stmt: Statement)
      returns (quiet: seq<Step>, c': State)
    requires Faultless(cfg) && WfConfig(cfg) && IsRun(cfg, Start(cfg, init), before, c)
    requires Wf(cfg, c) && Enabled(cfg, c, LocalWrite(n, id, stmt)) && !Waiting(cfg, c, KeyWritten(cfg.schema, stmt))
    ensures QuietRun(cfg, Do(cfg, c, LocalWrite(n, id, stmt)), quiet, c')
    ensures Wf(cfg, c') && SettledUpTo(cfg, c', cfg.nodes)
    ensures AllHold(c', KeyWritten(cfg.schema, stmt), Left(stmt))
  {
    var written, key := Do(cfg, c, LocalWrite(n, id, stmt)), KeyWritten(cfg.schema, stmt);
    StartSound(cfg, init);
    RunKeepsSound(cfg, init, Start(cfg, init), before, c);
    StepKeepsSound(cfg, init, c, LocalWrite(n, id, stmt));
    SoundIsSteady(cfg, init, written);
    quiet, c' := Finishes(cfg, init, written);
    LastWriteExactly(cfg, init, before, c, n, id, stmt);
    PathWiden(QuietNext(cfg), OthersNext(cfg, key), written, quiet, c');
  }
}
