/**
 The replication protocol as a state machine.

 Shared state is one append-only message log per shard, of which a prefix may have been
 discarded. A node has its database, its queue of captured but unpublished changes, its saved
 sequence per shard, and one listener per shard while its process is up. Message sequences start
 at 1, so message `q` of a shard is entry `q - 1` of its log.
 */
module Cluster {
  import opened Wrappers
  import opened Rows
  import opened Routing
  import opened Replay
  import opened Runs
  import Wire

  /** Fixed parameters, with one switch for each way a run can lose an update. */
  datatype Config = Config(
    nodes: nat,
    shards: nat,
    schema: Schema,
    // the shard each row's events are published to
    route: Route,
    // snapshots are enabled, so publishing saves its own acknowledged sequence
    snapshots: bool,
    // publishing can fail with an error other than "not ready" or "cancelled"
    lossyPublish: bool,
    // local updates may change primary keys
    keyUpdates: bool,
    // primary keys may hold times with a fraction of a second, which the wire drops
    fractionalKeys: bool,
    // a stream may discard messages that some node has not saved yet
    earlyDiscard: bool)

  /** Every captured change reaches its stream under the key it was written to. */
  predicate Replicable(cfg: Config) {
    !cfg.lossyPublish && !cfg.keyUpdates && !cfg.fractionalKeys
  }

  predicate Faultless(cfg: Config) {
    Replicable(cfg) && !cfg.snapshots && !cfg.earlyDiscard
  }

  // ---------- local writes and their capture ----------

  datatype Statement =
    | Insert(table: string, row: Row)
    | Update(table: string, oldRow: Row, newRow: Row)
    | Delete(table: string, oldRow: Row)

  /** What the application's own connection does to the database. */
  function Execute(schema: Schema, tables: Tables, stmt: Statement): Tables {
    match stmt
    case Insert(t, row) => tables[KeyOf(schema, t, row) := row]
    case Update(t, oldRow, newRow) => (tables - {KeyOf(schema, t, oldRow)})[KeyOf(schema, t, newRow) := newRow]
    case Delete(t, oldRow) => tables - {KeyOf(schema, t, oldRow)}
  }

  /** The change the trigger records: the NEW row of inserts and updates, the OLD row of deletes. */
  function Captured(id: int, stmt: Statement): Event {
    match stmt
    case Insert(t, row) => Event(id, "insert", t, row, "")
    case Update(t, _, newRow) => Event(id, "update", t, newRow, "")
    case Delete(t, oldRow) => Event(id, "delete", t, oldRow, "")
  }

  predicate Holds(schema: Schema, tables: Tables, table: string, row: Row) {
    Get(tables, KeyOf(schema, table, row)) == Some(row)
  }

  /** No primary-key value is a time with a fraction of a second, so keys survive the wire. */
  predicate WireSafe(schema: Schema, event: Event) {
    event.table in schema
    && forall c :: c in KeyColumns(schema[event.table]) ==> Wire.Whole(Cell(event.row, c))
  }

  predicate Executable(cfg: Config, tables: Tables, stmt: Statement) {
    stmt.table in cfg.schema
    && (cfg.fractionalKeys || WireSafe(cfg.schema, Captured(0, stmt)))
    && match stmt
       case Insert(_, _) => true
       case Update(t, oldRow, newRow) =>
         Holds(cfg.schema, tables, t, oldRow)
         && (cfg.keyUpdates || KeyOf(cfg.schema, t, oldRow) == KeyOf(cfg.schema, t, newRow))
       case Delete(t, oldRow) => Holds(cfg.schema, tables, t, oldRow)
  }

  // ---------- state ----------

  /**
   One shard's listener loop. `saved` is the loop's own variable, `cursor` the highest sequence
   delivered to it so far, `inflight` the sequence that has been applied but not yet saved (0 if
   there is none). The last three fields only record history: the value loaded at start, the
   sequences applied, and the largest sequence the same process saved when publishing.
   */
  datatype Listener = Listener(saved: nat, cursor: nat, inflight: nat,
                               loaded: nat, applied: seq<nat>, published: nat)

  /** A node's capture queue; restoring a snapshot drops the queue and begins a new epoch. */
  datatype Writer = Writer(node: nat, epoch: nat)

  /**
   A database together with what is known of its history. Every message of shard `s` up to
   `shown[s]` has been applied to it in order, so `shown[s] + 1` is the first one passed over or
   still to come; none beyond `reach[s]` has been applied. `carriers` are the writers whose
   captured changes it may hold.
   */
  datatype Image = Image(tables: Tables, shown: seq<nat>, reach: seq<nat>, carriers: set<Writer>)

  datatype Node = Node(up: bool, db: Image, queue: seq<Event>, epoch: nat,
                       seqMap: seq<nat>, listeners: seq<Listener>)

  /**
   `snapshots` are the snapshots taken so far, `lost` the queues that restoring has dropped. The
   other fields are the nodes, the shard logs and the first retained sequence of each shard.
   */
  datatype State = State(nodes: seq<Node>, logs: seq<seq<Msg>>, first: seq<nat>,
                         snapshots: seq<Image>, lost: map<Writer, seq<Event>>)

  predicate WfImage(cfg: Config, image: Image) {
    |image.shown| == |image.reach| == cfg.shards
  }

  predicate WfNode(cfg: Config, node: Node) {
    |node.seqMap| == |node.listeners| == cfg.shards && WfImage(cfg, node.db)
    && forall i :: 0 <= i < |node.queue| ==>
         Applicable(cfg.schema, node.queue[i]) && (cfg.fractionalKeys || WireSafe(cfg.schema, node.queue[i]))
  }

  /** The message is applicable, carries no hash and, keys surviving the wire, lies in the shard of its row. */
  ghost predicate WfMsg(cfg: Config, s: nat, msg: Msg) {
    Applicable(cfg.schema, msg.event) && msg.event.schemaHash == ""
    && (cfg.fractionalKeys || cfg.route(MsgKey(cfg.schema, msg)) == s)
  }

  ghost predicate WfLog(cfg: Config, s: nat, log: seq<Msg>) {
    forall i :: 0 <= i < |log| ==> WfMsg(cfg, s, log[i])
  }

  ghost predicate WfConfig(cfg: Config) {
    forall key :: cfg.route(key) < cfg.shards
  }

  ghost predicate Wf(cfg: Config, c: State) {
    WfConfig(cfg)
    && |c.nodes| == cfg.nodes && |c.logs| == |c.first| == cfg.shards
    && (forall n :: 0 <= n < cfg.nodes ==> WfNode(cfg, c.nodes[n]))
    && (forall s :: 0 <= s < cfg.shards ==> WfLog(cfg, s, c.logs[s]) && 1 <= c.first[s] <= Max(1, |c.logs[s]|))
    && (forall k :: 0 <= k < |c.snapshots| ==> WfImage(cfg, c.snapshots[k]))
    && (forall w :: w in c.lost ==> w.node < cfg.nodes && w.epoch < c.nodes[w.node].epoch)
  }

  function Zeros(n: nat): (r: seq<nat>)
    ensures |r| == n && forall i :: 0 <= i < n ==> r[i] == 0
  {
    seq(n, _ => 0)
  }

  function Max(a: nat, b: nat): nat {
    if a < b then b else a
  }

  /** A listener starts from the saved sequence and is delivered the stream from its beginning. */
  function FreshListener(savedSeq: nat): Listener {
    Listener(savedSeq, 0, 0, savedSeq, [], 0)
  }

  function FreshListeners(seqMap: seq<nat>): (r: seq<Listener>)
    ensures |r| == |seqMap| && forall s :: 0 <= s < |r| ==> r[s] == FreshListener(seqMap[s])
  {
    seq(|seqMap|, s requires 0 <= s < |seqMap| => FreshListener(seqMap[s]))
  }

  function FirstNode(cfg: Config, init: Tables, n: int): Node {
    var zeros := Zeros(cfg.shards);
    Node(false, Image(init, zeros, zeros, if n < 0 then {} else {Writer(n, 0)}), [], 0, zeros, FreshListeners(zeros))
  }

  /** All nodes start with the same database, nothing captured, nothing published. */
  function Start(cfg: Config, init: Tables): State {
    State(seq(cfg.nodes, n => FirstNode(cfg, init, n)), seq(cfg.shards, _ => []), seq(cfg.shards, _ => 1), [], map[])
  }

  // ---------- steps ----------

  datatype Step =
    // the application writes to node n's database, process up or not
    | LocalWrite(n: nat, id: int, stmt: Statement)
    // node n publishes its i-th captured change; `marked` says whether the change was also marked
    // published, `stored` whether the acknowledged sequence was saved, as it is with snapshots
    // enabled unless the process ends in between
    | Publish(n: nat, i: nat, marked: bool, stored: bool)
    // publishing fails and the change is marked published all the same
    | PublishLost(n: nat, i: nat)
    // message q of shard s reaches node n's listener, for the first time or again
    | Deliver(n: nat, s: nat, q: nat)
    // the listener saves the sequence it just applied
    | SaveSeq(n: nat, s: nat)
    | Crash(n: nat)
    | Restart(n: nat)
    // node n's database is copied to the snapshot storage, without its capture tables
    | TakeSnapshot(n: nat)
    // node n's process starts over snapshot k, which replaces its database
    | Restore(n: nat, k: nat)
    // shard s drops its oldest message, having a newer one
    | Discard(s: nat)

  /** The next message a listener has not been delivered yet. */
  function NextSeq(l: Listener, first: nat): nat {
    Max(l.cursor + 1, first)
  }

  /** The first sequence a stream reports; zero before its first message. */
  function FirstSeq(c: State, s: nat): nat
    requires s < |c.logs| == |c.first|
  {
    if |c.logs[s]| == 0 then 0 else c.first[s]
  }

  /** Some stream starts beyond what node `n` has saved of it. */
  ghost predicate Gapped(c: State, n: nat)
    requires n < |c.nodes| && |c.nodes[n].seqMap| == |c.logs| == |c.first|
  {
    exists s :: 0 <= s < |c.logs| && c.nodes[n].seqMap[s] < FirstSeq(c, s)
  }

  ghost predicate Enabled(cfg: Config, c: State, step: Step)
    requires Wf(cfg, c)
  {
    match step
    case LocalWrite(n, _, stmt) =>
      n < cfg.nodes && Executable(cfg, c.nodes[n].db.tables, stmt)
    case Publish(n, i, marked, stored) =>
      n < cfg.nodes && c.nodes[n].up && i < |c.nodes[n].queue|
      && (stored ==> cfg.snapshots) && (marked ==> stored == cfg.snapshots)
    case PublishLost(n, i) =>
      n < cfg.nodes && c.nodes[n].up && i < |c.nodes[n].queue| && cfg.lossyPublish
    case Deliver(n, s, q) =>
      n < cfg.nodes && s < cfg.shards && c.nodes[n].up && c.nodes[n].listeners[s].inflight == 0
      && c.first[s] <= q <= |c.logs[s]|
      && (q <= c.nodes[n].listeners[s].cursor || q == NextSeq(c.nodes[n].listeners[s], c.first[s]))
    case SaveSeq(n, s) =>
      n < cfg.nodes && s < cfg.shards && c.nodes[n].up && c.nodes[n].listeners[s].inflight != 0
    case Crash(n) => n < cfg.nodes && c.nodes[n].up
    case Restart(n) =>
      n < cfg.nodes && !c.nodes[n].up && !(cfg.snapshots && |c.snapshots| > 0 && Gapped(c, n))
    case TakeSnapshot(n) => n < cfg.nodes
    case Restore(n, k) =>
      n < cfg.nodes && !c.nodes[n].up && cfg.snapshots && k < |c.snapshots| && Gapped(c, n)
    case Discard(s) =>
      s < cfg.shards && c.first[s] < |c.logs[s]|
      && (cfg.earlyDiscard || forall n :: 0 <= n < cfg.nodes ==> c.first[s] <= c.nodes[n].seqMap[s])
  }

  function Remove<T>(xs: seq<T>, i: nat): (r: seq<T>)
    requires i < |xs|
    ensures |r| == |xs| - 1
    ensures forall j :: 0 <= j < |r| ==> r[j] == xs[if j < i then j else j + 1]
  {
    xs[..i] + xs[i + 1..]
  }

  function AfterWrite(cfg: Config, node: Node, id: int, stmt: Statement): Node {
    node.(db := node.db.(tables := Execute(cfg.schema, node.db.tables, stmt)),
          queue := node.queue + [Captured(id, stmt)])
  }

  /** The publisher's side of a publish that was acknowledged with sequence `seqNo`. */
  function AfterPublish(node: Node, i: nat, marked: bool, stored: bool, s: nat, seqNo: nat): Node
    requires i < |node.queue| && s < |node.seqMap| == |node.listeners|
  {
    var drained := if marked then node.(queue := Remove(node.queue, i)) else node;
    if !stored then drained
    else
      var l := node.listeners[s];
      drained.(seqMap := node.seqMap[s := Max(node.seqMap[s], seqNo)],
               listeners := node.listeners[s := l.(published := Max(l.published, seqNo))])
  }

  /** Applying message `q` of shard `s`; a message out of turn leaves a gap, one applied again steps back. */
  function AfterApply(cfg: Config, image: Image, s: nat, q: nat, event: Event): Image
    requires s < |image.shown| == |image.reach| && Applicable(cfg.schema, event)
  {
    Image(Replicate(cfg.schema, image.tables, event).value,
          image.shown[s := if q <= image.shown[s] + 1 then q else image.shown[s]],
          image.reach[s := Max(image.reach[s], q)],
          image.carriers)
  }

  /** The listener drops a message it believes saved and applies any other. */
  function AfterDeliver(cfg: Config, node: Node, s: nat, q: nat, event: Event): Node
    requires s < |node.listeners| == |node.db.shown| == |node.db.reach| && Applicable(cfg.schema, event)
  {
    var l := node.listeners[s].(cursor := Max(node.listeners[s].cursor, q));
    if q <= l.saved then node.(listeners := node.listeners[s := l])
    else node.(db := AfterApply(cfg, node.db, s, q, event),
               listeners := node.listeners[s := l.(inflight := q, applied := l.applied + [q])])
  }

  /** The loop variable takes the value that saving returns, not the sequence just applied. */
  function AfterSave(node: Node, s: nat): Node
    requires s < |node.listeners| == |node.seqMap|
  {
    var stored := Max(node.seqMap[s], node.listeners[s].inflight);
    node.(seqMap := node.seqMap[s := stored],
          listeners := node.listeners[s := node.listeners[s].(saved := stored, inflight := 0)])
  }

  function AfterRestart(node: Node): Node {
    node.(up := true, listeners := FreshListeners(node.seqMap))
  }

  /** The restored database comes without changes to publish, and the saved sequences stay as they were. */
  function AfterRestore(node: Node, n: nat, image: Image): Node {
    node.(up := true, db := image.(carriers := image.carriers + {Writer(n, node.epoch + 1)}), queue := [],
          epoch := node.epoch + 1, listeners := FreshListeners(node.seqMap))
  }

  ghost function Do(cfg: Config, c: State, step: Step): State
    requires Wf(cfg, c) && Enabled(cfg, c, step)
  {
    match step
    case LocalWrite(n, id, stmt) =>
      c.(nodes := c.nodes[n := AfterWrite(cfg, c.nodes[n], id, stmt)])
    case Publish(n, i, marked, stored) =>
      var event := c.nodes[n].queue[i];
      var s := cfg.route(EventKey(cfg.schema, event));
      c.(logs := c.logs[s := c.logs[s] + [Msg(n, Wire.OverWire(event))]],
         nodes := c.nodes[n := AfterPublish(c.nodes[n], i, marked, stored, s, |c.logs[s]| + 1)
                                 .(up := stored == cfg.snapshots)])
    case PublishLost(n, i) =>
      c.(nodes := c.nodes[n := c.nodes[n].(queue := Remove(c.nodes[n].queue, i))])
    case Deliver(n, s, q) =>
      c.(nodes := c.nodes[n := AfterDeliver(cfg, c.nodes[n], s, q, c.logs[s][q - 1].event)])
    case SaveSeq(n, s) => c.(nodes := c.nodes[n := AfterSave(c.nodes[n], s)])
    case Crash(n) => c.(nodes := c.nodes[n := c.nodes[n].(up := false)])
    case Restart(n) => c.(nodes := c.nodes[n := AfterRestart(c.nodes[n])])
    case TakeSnapshot(n) => c.(snapshots := c.snapshots + [c.nodes[n].db])
    case Restore(n, k) =>
      c.(nodes := c.nodes[n := AfterRestore(c.nodes[n], n, c.snapshots[k])],
         lost := c.lost[Writer(n, c.nodes[n].epoch) := c.nodes[n].queue])
    case Discard(s) => c.(first := c.first[s := c.first[s] + 1])
  }

  ghost function Next(cfg: Config): (State, Step) -> Option<State> {
    (c, step) => if Wf(cfg, c) && Enabled(cfg, c, step) then Some(Do(cfg, c, step)) else None
  }

  /** `steps` leads from `c0` to `c`. */
  ghost predicate IsRun(cfg: Config, c0: State, steps: seq<Step>, c: State) {
    Path(Next(cfg), c0, steps, c)
  }

  // ---------- well-formedness is kept by every step ----------

  lemma CapturedApplicable(cfg: Config, id: int, stmt: Statement)
    requires stmt.table in cfg.schema
    ensures Applicable(cfg.schema, Captured(id, stmt))
    ensures WireSafe(cfg.schema, Captured(0, stmt)) ==> WireSafe(cfg.schema, Captured(id, stmt))
  {
  }

  /** A published message is applicable and has no hash; if the key survives the wire, it is the captured one. */
  lemma PublishedMessage(cfg: Config, n: nat, event: Event)
    requires Applicable(cfg.schema, event)
    ensures Applicable(cfg.schema, Wire.OverWire(event)) && Wire.OverWire(event).schemaHash == ""
    ensures WireSafe(cfg.schema, event) ==>
              MsgKey(cfg.schema, Msg(n, Wire.OverWire(event))) == EventKey(cfg.schema, event)
  {
  }

  /** Routing by event hash is a well-formed choice of routing. */
  lemma HashRoutingWf(cfg: Config, hasher: Hasher)
    requires cfg.shards > 0 && cfg.route == HashRoute(cfg.schema, hasher, cfg.shards)
    ensures WfConfig(cfg)
    ensures forall event :: Applicable(cfg.schema, event) ==>
              cfg.route(EventKey(cfg.schema, event))
              == ShardOf(cfg.schema, hasher, cfg.shards, event.table, event.row)
  {
    forall event | Applicable(cfg.schema, event)
      ensures cfg.route(EventKey(cfg.schema, event))
           == ShardOf(cfg.schema, hasher, cfg.shards, event.table, event.row)
    {
      ShardOfRow(cfg.schema, hasher, cfg.shards, event.table, event.row);
    }
  }

  lemma StartWf(cfg: Config, init: Tables)
    requires WfConfig(cfg)
    ensures Wf(cfg, Start(cfg, init))
  {
  }

  /** Replacing a node by a well-formed one. */
  lemma ReplaceKeepsWf(cfg: Config, c: State, n: nat, node: Node)
    requires Wf(cfg, c) && n < cfg.nodes && WfNode(cfg, node) && node.epoch >= c.nodes[n].epoch
    ensures Wf(cfg, c.(nodes := c.nodes[n := node]))
  {
  }

  lemma AppendKeepsWf(cfg: Config, c: State, s: nat, msg: Msg)
    requires Wf(cfg, c) && s < cfg.shards && Applicable(cfg.schema, msg.event) && msg.event.schemaHash == ""
    requires cfg.fractionalKeys || cfg.route(MsgKey(cfg.schema, msg)) == s
    ensures Wf(cfg, c.(logs := c.logs[s := c.logs[s] + [msg]]))
  {
  }

  lemma PublishKeepsWf(cfg: Config, c: State, n: nat, i: nat, marked: bool, stored: bool)
    requires Wf(cfg, c) && Enabled(cfg, c, Publish(n, i, marked, stored))
    ensures Wf(cfg, Do(cfg, c, Publish(n, i, marked, stored)))
  {
    var node := c.nodes[n];
    var event := node.queue[i];
    PublishedMessage(cfg, n, event);
    var msg := Msg(n, Wire.OverWire(event));
    var s := cfg.route(EventKey(cfg.schema, event));
    AppendKeepsWf(cfg, c, s, msg);
    var c1 := c.(logs := c.logs[s := c.logs[s] + [msg]]);
    var node' := AfterPublish(node, i, marked, stored, s, |c.logs[s]| + 1).(up := stored == cfg.snapshots);
    assert WfNode(cfg, node');
    ReplaceKeepsWf(cfg, c1, n, node');
  }

  lemma RestoreKeepsWf(cfg: Config, c: State, n: nat, k: nat)
    requires Wf(cfg, c) && Enabled(cfg, c, Restore(n, k))
    ensures Wf(cfg, Do(cfg, c, Restore(n, k)))
  {
    ReplaceKeepsWf(cfg, c, n, AfterRestore(c.nodes[n], n, c.snapshots[k]));
  }

  lemma DeliverKeepsWf(cfg: Config, c: State, n: nat, s: nat, q: nat)
    requires Wf(cfg, c) && Enabled(cfg, c, Deliver(n, s, q))
    ensures Wf(cfg, Do(cfg, c, Deliver(n, s, q)))
  {
    assert WfLog(cfg, s, c.logs[s]);
    ReplaceKeepsWf(cfg, c, n, AfterDeliver(cfg, c.nodes[n], s, q, c.logs[s][q - 1].event));
  }

  lemma WriteKeepsWf(cfg: Config, c: State, n: nat, id: int, stmt: Statement)
    requires Wf(cfg, c) && Enabled(cfg, c, LocalWrite(n, id, stmt))
    ensures Wf(cfg, Do(cfg, c, LocalWrite(n, id, stmt)))
  {
    CapturedApplicable(cfg, id, stmt);
    ReplaceKeepsWf(cfg, c, n, AfterWrite(cfg, c.nodes[n], id, stmt));
  }

  /** Crashing, restarting, saving and losing a publish concern one node only. */
  lemma ProcessKeepsWf(cfg: Config, c: State, step: Step)
    requires Wf(cfg, c) && Enabled(cfg, c, step)
    requires step.Crash? || step.Restart? || step.SaveSeq? || step.PublishLost?
    ensures Wf(cfg, Do(cfg, c, step))
  {
    ReplaceKeepsWf(cfg, c, step.n, Do(cfg, c, step).nodes[step.n]);
  }

  lemma StepKeepsWf(cfg: Config, c: State, step: Step)
    requires Wf(cfg, c) && Enabled(cfg, c, step)
    ensures Wf(cfg, Do(cfg, c, step))
  {
    match step
    case LocalWrite(n, id, stmt) => WriteKeepsWf(cfg, c, n, id, stmt);
    case Publish(n, i, marked, stored) => PublishKeepsWf(cfg, c, n, i, marked, stored);
    case Deliver(n, s, q) => DeliverKeepsWf(cfg, c, n, s, q);
    case Restore(n, k) => RestoreKeepsWf(cfg, c, n, k);
    case PublishLost(_, _) => ProcessKeepsWf(cfg, c, step);
    case SaveSeq(_, _) => ProcessKeepsWf(cfg, c, step);
    case Crash(_) => ProcessKeepsWf(cfg, c, step);
    case Restart(_) => ProcessKeepsWf(cfg, c, step);
    case TakeSnapshot(_) =>
    case Discard(_) =>
  }

  /** The first step of a run, and the run after it. */
  lemma RunHead(cfg: Config, c0: State, steps: seq<Step>, c: State)
    requires IsRun(cfg, c0, steps, c) && |steps| > 0
    ensures Wf(cfg, c0) && Enabled(cfg, c0, steps[0]) && IsRun(cfg, Do(cfg, c0, steps[0]), steps[1..], c)
  {
  }

  lemma RunOne(cfg: Config, c: State, step: Step)
    requires Wf(cfg, c) && Enabled(cfg, c, step)
    ensures IsRun(cfg, c, [step], Do(cfg, c, step))
  {
  }

  lemma RunAppend(cfg: Config, a: State, xs: seq<Step>, b: State, ys: seq<Step>, c: State)
    requires IsRun(cfg, a, xs, b) && IsRun(cfg, b, ys, c)
    ensures IsRun(cfg, a, xs + ys, c)
  {
    PathAppend(Next(cfg), a, xs, b, ys, c);
  }
}
