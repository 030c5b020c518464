/**
 What the databases of a cluster show, in every run.

 A database shows a shard at a position: under each key it holds what the messages up to that
 position leave there. It may be off in two ways only. It may already hold something that a later
 message will overwrite anyway, or a change that has been captured but not published. That much
 is kept by every step, by every node's database and by every snapshot ever taken, whether or not
 streams discard early, nodes save by publishing, or snapshots are restored.
 */
module Coverage {
  import opened Wrappers
  import opened Rows
  import opened Replay
  import opened Cluster

  ghost predicate HasKey(cfg: Config, queue: seq<Event>, key: RowKey) {
    exists i :: 0 <= i < |queue| && EventKey(cfg.schema, queue[i]) == key
  }

  /** The captured changes of a writer: its node's queue, or what was dropped of it. */
  function QueueOf(c: State, w: Writer): seq<Event> {
    if w.node < |c.nodes| && c.nodes[w.node].epoch == w.epoch then c.nodes[w.node].queue
    else if w in c.lost then c.lost[w]
    else []
  }

  ghost predicate QueuedBy(cfg: Config, c: State, w: Writer, key: RowKey) {
    HasKey(cfg, QueueOf(c, w), key)
  }

  ghost predicate Pending(cfg: Config, c: State, carriers: set<Writer>, key: RowKey) {
    exists w :: w in carriers && QueuedBy(cfg, c, w, key)
  }

  ghost predicate Carried(image: Image, n: nat) {
    exists w :: w in image.carriers && w.node == n
  }

  /** Message `i` writes `key` and may be in the image already, as applied or as a carrier's own write. */
  ghost predicate AheadAt(cfg: Config, image: Image, s: nat, log: seq<Msg>, i: nat, key: RowKey)
    requires i < |log| && s < |image.reach|
  {
    MsgKey(cfg.schema, log[i]) == key && (i < image.reach[s] || Carried(image, log[i].from))
  }

  ghost predicate Ahead(cfg: Config, image: Image, s: nat, log: seq<Msg>, key: RowKey)
    requires s < |image.shown| == |image.reach|
  {
    exists i :: image.shown[s] <= i < |log| && AheadAt(cfg, image, s, log, i, key)
  }

  /** Positions of the image lie within the logs. */
  ghost predicate Bounded(cfg: Config, c: State, image: Image) {
    WfImage(cfg, image) && |c.logs| == cfg.shards
    && forall s :: 0 <= s < cfg.shards ==> image.shown[s] <= image.reach[s] <= |c.logs[s]|
  }

  ghost predicate Shows(cfg: Config, init: Tables, image: Image, s: nat, log: seq<Msg>, key: RowKey)
    requires s < |image.shown| && image.shown[s] <= |log|
  {
    Get(image.tables, key) == RowAfter(cfg.schema, log[..image.shown[s]], key, Get(init, key))
  }

  ghost predicate RowInv(cfg: Config, init: Tables, c: State, image: Image, key: RowKey)
    requires WfConfig(cfg) && Bounded(cfg, c, image)
  {
    var s := cfg.route(key);
    Shows(cfg, init, image, s, c.logs[s], key)
    || Ahead(cfg, image, s, c.logs[s], key)
    || Pending(cfg, c, image.carriers, key)
  }

  ghost predicate ImageInv(cfg: Config, init: Tables, c: State, image: Image)
    requires WfConfig(cfg)
  {
    Bounded(cfg, c, image) && forall key :: RowInv(cfg, init, c, image, key)
  }

  ghost predicate Inv(cfg: Config, init: Tables, c: State) {
    && Wf(cfg, c)
    && (forall n :: 0 <= n < cfg.nodes ==>
         ImageInv(cfg, init, c, c.nodes[n].db) && Writer(n, c.nodes[n].epoch) in c.nodes[n].db.carriers)
    && (forall k :: 0 <= k < |c.snapshots| ==> ImageInv(cfg, init, c, c.snapshots[k]))
  }

  lemma StartInv(cfg: Config, init: Tables)
    requires WfConfig(cfg)
    ensures Inv(cfg, init, Start(cfg, init))
  {
    StartWf(cfg, init);
    var c := Start(cfg, init);
    forall n | 0 <= n < cfg.nodes ensures ImageInv(cfg, init, c, c.nodes[n].db) {
      forall key ensures RowInv(cfg, init, c, c.nodes[n].db, key) {
        assert Shows(cfg, init, c.nodes[n].db, cfg.route(key), c.logs[cfg.route(key)], key);
      }
    }
  }

  // ---------- images that a step does not touch ----------

  /** The change of writer `w` to `key` has become the newest message of its shard. */
  ghost predicate Sent(cfg: Config, c: State, c': State, w: Writer, key: RowKey)
    requires WfConfig(cfg) && |c.logs| == |c'.logs| == cfg.shards
  {
    var s := cfg.route(key);
    |c.logs[s]| < |c'.logs[s]| && c'.logs[s][|c.logs[s]|].from == w.node
    && MsgKey(cfg.schema, c'.logs[s][|c.logs[s]|]) == key
  }

  /** Logs only grow, and a captured change stays captured until it is sent. */
  ghost predicate Grows(cfg: Config, c: State, c': State) {
    && WfConfig(cfg) && |c.logs| == |c'.logs| == cfg.shards
    && (forall s :: 0 <= s < cfg.shards ==> c.logs[s] <= c'.logs[s])
    && forall w, key :: QueuedBy(cfg, c, w, key) ==> QueuedBy(cfg, c', w, key) || Sent(cfg, c, c', w, key)
  }

  lemma GrowthKeepsImage(cfg: Config, init: Tables, c: State, c': State, image: Image)
    requires Grows(cfg, c, c') && ImageInv(cfg, init, c, image)
    ensures ImageInv(cfg, init, c', image)
  {
    forall s | 0 <= s < cfg.shards ensures image.shown[s] <= image.reach[s] <= |c'.logs[s]| {
      assert c.logs[s] <= c'.logs[s];
    }
    forall key ensures RowInv(cfg, init, c', image, key) {
      GrowthKeepsRow(cfg, init, c, c', image, key);
    }
  }

  lemma GrowthKeepsRow(cfg: Config, init: Tables, c: State, c': State, image: Image, key: RowKey)
    requires Grows(cfg, c, c') && Bounded(cfg, c, image) && Bounded(cfg, c', image)
    requires RowInv(cfg, init, c, image, key)
    ensures RowInv(cfg, init, c', image, key)
  {
    var s := cfg.route(key);
    var log, log' := c.logs[s], c'.logs[s];
    assert log <= log' && log'[..image.shown[s]] == log[..image.shown[s]];
    if Ahead(cfg, image, s, log, key) {
      var i :| image.shown[s] <= i < |log| && AheadAt(cfg, image, s, log, i, key);
      assert AheadAt(cfg, image, s, log', i, key);
    } else if Pending(cfg, c, image.carriers, key) {
      var w :| w in image.carriers && QueuedBy(cfg, c, w, key);
      if Sent(cfg, c, c', w, key) {
        assert AheadAt(cfg, image, s, log', |log|, key);
      }
    }
  }

  // ---------- the steps ----------

  lemma SameQueuesGrow(cfg: Config, c: State, c': State)
    requires Wf(cfg, c) && c'.logs == c.logs && c'.lost == c.lost && |c'.nodes| == |c.nodes|
    requires forall n :: 0 <= n < |c.nodes| ==>
               c'.nodes[n].queue == c.nodes[n].queue && c'.nodes[n].epoch == c.nodes[n].epoch
    ensures Grows(cfg, c, c')
  {
  }

  lemma WriteGrows(cfg: Config, c: State, n: nat, id: int, stmt: Statement)
    requires Wf(cfg, c) && Enabled(cfg, c, LocalWrite(n, id, stmt))
    ensures Grows(cfg, c, Do(cfg, c, LocalWrite(n, id, stmt)))
  {
    var c' := Do(cfg, c, LocalWrite(n, id, stmt));
    forall w, key | QueuedBy(cfg, c, w, key) ensures QueuedBy(cfg, c', w, key) {
      var q, q' := QueueOf(c, w), QueueOf(c', w);
      var i :| 0 <= i < |q| && EventKey(cfg.schema, q[i]) == key;
      assert q <= q' && q'[i] == q[i];
    }
  }

  lemma PublishGrows(cfg: Config, c: State, n: nat, i: nat, marked: bool, stored: bool)
    requires Replicable(cfg) && Wf(cfg, c) && Enabled(cfg, c, Publish(n, i, marked, stored))
    ensures Grows(cfg, c, Do(cfg, c, Publish(n, i, marked, stored)))
  {
    var c' := Do(cfg, c, Publish(n, i, marked, stored));
    PublishedMessage(cfg, n, c.nodes[n].queue[i]);
    forall w, key | QueuedBy(cfg, c, w, key)
      ensures QueuedBy(cfg, c', w, key) || Sent(cfg, c, c', w, key)
    {
      var q, q' := QueueOf(c, w), QueueOf(c', w);
      var j :| 0 <= j < |q| && EventKey(cfg.schema, q[j]) == key;
      if q' != q && j != i {
        assert q'[if j < i then j else j - 1] == q[j];
      }
    }
  }

  /** A queue that restoring drops is remembered as lost; the new epoch starts with nothing captured. */
  lemma RestoreKeepsQueue(cfg: Config, c: State, n: nat, k: nat, w: Writer)
    requires Wf(cfg, c) && Enabled(cfg, c, Restore(n, k))
    ensures QueueOf(Do(cfg, c, Restore(n, k)), w) == QueueOf(c, w)
  {
    var epoch := c.nodes[n].epoch;
    assert w == Writer(n, epoch + 1) ==> w !in c.lost;
  }

  lemma RestoreGrows(cfg: Config, c: State, n: nat, k: nat)
    requires Wf(cfg, c) && Enabled(cfg, c, Restore(n, k))
    ensures Grows(cfg, c, Do(cfg, c, Restore(n, k)))
  {
    var c' := Do(cfg, c, Restore(n, k));
    forall w, key | QueuedBy(cfg, c, w, key) ensures QueuedBy(cfg, c', w, key) {
      RestoreKeepsQueue(cfg, c, n, k, w);
    }
  }

  /** Steps that neither capture, publish nor drop a change. */
  predicate LeavesQueues(step: Step) {
    step.Deliver? || step.SaveSeq? || step.Crash? || step.Restart? || step.TakeSnapshot? || step.Discard?
  }

  lemma QuietGrows(cfg: Config, c: State, step: Step)
    requires Wf(cfg, c) && Enabled(cfg, c, step) && LeavesQueues(step)
    ensures Grows(cfg, c, Do(cfg, c, step))
  {
    SameQueuesGrow(cfg, c, Do(cfg, c, step));
  }

  lemma StepGrows(cfg: Config, c: State, step: Step)
    requires Replicable(cfg) && Wf(cfg, c) && Enabled(cfg, c, step)
    ensures Grows(cfg, c, Do(cfg, c, step))
  {
    if LeavesQueues(step) {
      QuietGrows(cfg, c, step);
    } else {
      match step
      case LocalWrite(n, id, stmt) => WriteGrows(cfg, c, n, id, stmt);
      case Publish(n, i, marked, stored) => PublishGrows(cfg, c, n, i, marked, stored);
      case Restore(n, k) => RestoreGrows(cfg, c, n, k);
    }
  }

  // ---------- images that a step changes ----------

  /** A local write touches one row, whose change is then captured. */
  lemma WriteKeepsImage(cfg: Config, init: Tables, c: State, n: nat, id: int, stmt: Statement)
    requires Replicable(cfg) && Wf(cfg, c) && Enabled(cfg, c, LocalWrite(n, id, stmt))
    requires ImageInv(cfg, init, c, c.nodes[n].db) && Writer(n, c.nodes[n].epoch) in c.nodes[n].db.carriers
    ensures var c' := Do(cfg, c, LocalWrite(n, id, stmt)); ImageInv(cfg, init, c', c'.nodes[n].db)
  {
    var c' := Do(cfg, c, LocalWrite(n, id, stmt));
    var db, db' := c.nodes[n].db, c'.nodes[n].db;
    WriteGrows(cfg, c, n, id, stmt);
    GrowthKeepsImage(cfg, init, c, c', db);
    var written := EventKey(cfg.schema, Captured(id, stmt));
    forall key ensures RowInv(cfg, init, c', db', key) {
      assert RowInv(cfg, init, c', db, key);
      if key == written {
        var w := Writer(n, c.nodes[n].epoch);
        assert QueueOf(c', w)[|c.nodes[n].queue|] == Captured(id, stmt);
        assert QueuedBy(cfg, c', w, key);
      } else {
        assert Get(db'.tables, key) == Get(db.tables, key);
        SameRowInv(cfg, init, c', db, db', key);
      }
    }
  }

  /** Images that differ in other rows only. */
  lemma SameRowInv(cfg: Config, init: Tables, c: State, image: Image, image': Image, key: RowKey)
    requires WfConfig(cfg) && Bounded(cfg, c, image) && RowInv(cfg, init, c, image, key)
    requires image' == image.(tables := image'.tables) && Get(image'.tables, key) == Get(image.tables, key)
    ensures RowInv(cfg, init, c, image', key)
  {
    var s := cfg.route(key);
    if Ahead(cfg, image, s, c.logs[s], key) {
      var i :| image.shown[s] <= i < |c.logs[s]| && AheadAt(cfg, image, s, c.logs[s], i, key);
      assert AheadAt(cfg, image', s, c.logs[s], i, key);
    }
  }

  /** Going back to an earlier position changes a row only if a message in between wrote it. */
  lemma StepBack(schema: Schema, log: seq<Msg>, a: nat, b: nat, key: RowKey, row: Option<Row>)
    requires a <= b <= |log|
    ensures RowAfter(schema, log[..b], key, row) == RowAfter(schema, log[..a], key, row)
         || exists i :: a <= i < b && MsgKey(schema, log[i]) == key
  {
    assert log[..b] == log[..a] + log[a..b];
    RowAfterAppend(schema, log[..a], log[a..b], key, row);
    var before := RowAfter(schema, log[..a], key, row);
    RowAfterTouched(schema, log[a..b], key, before, before);
    if Touches(schema, log[a..b], key) {
      var i :| 0 <= i < |log[a..b]| && MsgKey(schema, log[a..b][i]) == key;
      assert log[a + i] == log[a..b][i];
    }
  }

  /** The row that message `q` writes. */
  lemma AppliedRow(cfg: Config, init: Tables, image: Image, s: nat, q: nat, log: seq<Msg>, key: RowKey)
    requires s < |image.shown| == |image.reach| && image.shown[s] <= image.reach[s] <= |log|
    requires 1 <= q <= |log| && Applicable(cfg.schema, log[q - 1].event) && MsgKey(cfg.schema, log[q - 1]) == key
    ensures var image' := AfterApply(cfg, image, s, q, log[q - 1].event);
            Shows(cfg, init, image', s, log, key) || Ahead(cfg, image', s, log, key)
  {
    var image' := AfterApply(cfg, image, s, q, log[q - 1].event);
    ReplicateIsBlindWrite(cfg.schema, image.tables, log[q - 1].event, key);
    if q <= image.shown[s] + 1 {
      assert log[..q][q - 1] == log[q - 1];
    } else {
      assert AheadAt(cfg, image', s, log, q - 1, key);
    }
  }

  /** A row that message `q` of the same shard does not write. */
  lemma OtherRow(cfg: Config, init: Tables, image: Image, s: nat, q: nat, log: seq<Msg>, key: RowKey)
    requires s < |image.shown| == |image.reach| && image.shown[s] <= image.reach[s] <= |log|
    requires 1 <= q <= |log| && Applicable(cfg.schema, log[q - 1].event) && MsgKey(cfg.schema, log[q - 1]) != key
    requires Shows(cfg, init, image, s, log, key) || Ahead(cfg, image, s, log, key)
    ensures var image' := AfterApply(cfg, image, s, q, log[q - 1].event);
            Shows(cfg, init, image', s, log, key) || Ahead(cfg, image', s, log, key)
  {
    var image' := AfterApply(cfg, image, s, q, log[q - 1].event);
    ReplicateIsBlindWrite(cfg.schema, image.tables, log[q - 1].event, key);
    var shown, shown' := image.shown[s], image'.shown[s];
    if Ahead(cfg, image, s, log, key) {
      var i :| shown <= i < |log| && AheadAt(cfg, image, s, log, i, key);
      assert AheadAt(cfg, image', s, log, i, key);
      assert shown' <= i;
    } else if shown' <= shown {
      StepBack(cfg.schema, log, shown', shown, key, Get(init, key));
      if i :| shown' <= i < shown && MsgKey(cfg.schema, log[i]) == key {
        assert AheadAt(cfg, image', s, log, i, key);
      }
    } else {
      assert log[..shown'][..shown] == log[..shown];
    }
  }

  /** A row of another shard. */
  lemma FarRow(cfg: Config, init: Tables, c: State, image: Image, s: nat, q: nat, key: RowKey)
    requires WfConfig(cfg) && Bounded(cfg, c, image) && RowInv(cfg, init, c, image, key)
    requires s < cfg.shards && 1 <= q <= |c.logs[s]| && Applicable(cfg.schema, c.logs[s][q - 1].event)
    requires cfg.route(key) != s && MsgKey(cfg.schema, c.logs[s][q - 1]) != key
    ensures var image' := AfterApply(cfg, image, s, q, c.logs[s][q - 1].event);
            Bounded(cfg, c, image') && RowInv(cfg, init, c, image', key)
  {
    var event := c.logs[s][q - 1].event;
    var image' := AfterApply(cfg, image, s, q, event);
    var t := cfg.route(key);
    ReplicateIsBlindWrite(cfg.schema, image.tables, event, key);
    if Ahead(cfg, image, t, c.logs[t], key) {
      var i :| image.shown[t] <= i < |c.logs[t]| && AheadAt(cfg, image, t, c.logs[t], i, key);
      assert AheadAt(cfg, image', t, c.logs[t], i, key);
    }
  }

  /** Applying any message, in turn, out of turn or again, keeps what an image shows. */
  lemma ApplyKeepsImage(cfg: Config, init: Tables, c: State, image: Image, s: nat, q: nat)
    requires Replicable(cfg) && Wf(cfg, c) && ImageInv(cfg, init, c, image)
    requires s < cfg.shards && 1 <= q <= |c.logs[s]| && Applicable(cfg.schema, c.logs[s][q - 1].event)
    ensures ImageInv(cfg, init, c, AfterApply(cfg, image, s, q, c.logs[s][q - 1].event))
  {
    var msg := c.logs[s][q - 1];
    var image' := AfterApply(cfg, image, s, q, msg.event);
    assert WfLog(cfg, s, c.logs[s]);
    forall key ensures RowInv(cfg, init, c, image', key) {
      assert RowInv(cfg, init, c, image, key);
      if cfg.route(key) != s {
        FarRow(cfg, init, c, image, s, q, key);
      } else if MsgKey(cfg.schema, msg) == key {
        AppliedRow(cfg, init, image, s, q, c.logs[s], key);
      } else if !Pending(cfg, c, image.carriers, key) {
        OtherRow(cfg, init, image, s, q, c.logs[s], key);
      }
    }
  }

  /** More carriers explain no less. */
  lemma MoreCarriers(cfg: Config, init: Tables, c: State, image: Image, w: Writer)
    requires WfConfig(cfg) && ImageInv(cfg, init, c, image)
    ensures ImageInv(cfg, init, c, image.(carriers := image.carriers + {w}))
  {
    var image' := image.(carriers := image.carriers + {w});
    forall key ensures RowInv(cfg, init, c, image', key) {
      var s := cfg.route(key);
      assert RowInv(cfg, init, c, image, key);
      if Ahead(cfg, image, s, c.logs[s], key) {
        var i :| image.shown[s] <= i < |c.logs[s]| && AheadAt(cfg, image, s, c.logs[s], i, key);
        assert AheadAt(cfg, image', s, c.logs[s], i, key);
      }
    }
  }

  lemma DeliveredImage(cfg: Config, init: Tables, c: State, n: nat, s: nat, q: nat)
    requires Replicable(cfg) && Wf(cfg, c) && n < cfg.nodes && s < cfg.shards && 1 <= q <= |c.logs[s]|
    requires Applicable(cfg.schema, c.logs[s][q - 1].event) && ImageInv(cfg, init, c, c.nodes[n].db)
    ensures ImageInv(cfg, init, c, AfterDeliver(cfg, c.nodes[n], s, q, c.logs[s][q - 1].event).db)
  {
    if q > c.nodes[n].listeners[s].saved {
      ApplyKeepsImage(cfg, init, c, c.nodes[n].db, s, q);
    }
  }

  lemma DeliverKeepsImage(cfg: Config, init: Tables, c: State, n: nat, s: nat, q: nat)
    requires Replicable(cfg) && Wf(cfg, c) && Enabled(cfg, c, Deliver(n, s, q))
    requires ImageInv(cfg, init, c, c.nodes[n].db)
    ensures var c' := Do(cfg, c, Deliver(n, s, q)); ImageInv(cfg, init, c', c'.nodes[n].db)
  {
    var c' := Do(cfg, c, Deliver(n, s, q));
    assert WfLog(cfg, s, c.logs[s]);
    DeliveredImage(cfg, init, c, n, s, q);
    QuietGrows(cfg, c, Deliver(n, s, q));
    GrowthKeepsImage(cfg, init, c, c', c'.nodes[n].db);
  }

  lemma RestoreKeepsImage(cfg: Config, init: Tables, c: State, n: nat, k: nat)
    requires Wf(cfg, c) && Enabled(cfg, c, Restore(n, k)) && ImageInv(cfg, init, c, c.snapshots[k])
    ensures var c' := Do(cfg, c, Restore(n, k)); ImageInv(cfg, init, c', c'.nodes[n].db)
  {
    var c' := Do(cfg, c, Restore(n, k));
    RestoreGrows(cfg, c, n, k);
    GrowthKeepsImage(cfg, init, c, c', c.snapshots[k]);
    MoreCarriers(cfg, init, c', c.snapshots[k], Writer(n, c.nodes[n].epoch + 1));
  }

  /** The image of each node after each step. */
  lemma StepKeepsNode(cfg: Config, init: Tables, c: State, step: Step, n: nat)
    requires Replicable(cfg) && Inv(cfg, init, c) && Enabled(cfg, c, step) && n < cfg.nodes
    ensures var c' := Do(cfg, c, step);
            |c'.nodes| == cfg.nodes && ImageInv(cfg, init, c', c'.nodes[n].db)
            && Writer(n, c'.nodes[n].epoch) in c'.nodes[n].db.carriers
  {
    var c' := Do(cfg, c, step);
    StepGrows(cfg, c, step);
    GrowthKeepsImage(cfg, init, c, c', c.nodes[n].db);
    if step.LocalWrite? && step.n == n {
      WriteKeepsImage(cfg, init, c, n, step.id, step.stmt);
    } else if step.Deliver? && step.n == n {
      DeliverKeepsImage(cfg, init, c, n, step.s, step.q);
    } else if step.Restore? && step.n == n {
      RestoreKeepsImage(cfg, init, c, n, step.k);
    }
  }

  lemma StepKeepsSnapshots(cfg: Config, init: Tables, c: State, step: Step)
    requires Replicable(cfg) && Inv(cfg, init, c) && Enabled(cfg, c, step)
    ensures var c' := Do(cfg, c, step);
            forall k :: 0 <= k < |c'.snapshots| ==> ImageInv(cfg, init, c', c'.snapshots[k])
  {
    var c' := Do(cfg, c, step);
    StepGrows(cfg, c, step);
    forall k | 0 <= k < |c'.snapshots| ensures ImageInv(cfg, init, c', c'.snapshots[k]) {
      GrowthKeepsImage(cfg, init, c, c', if k < |c.snapshots| then c.snapshots[k] else c.nodes[step.n].db);
    }
  }

  /** Every step keeps what every database and every snapshot shows. */
  lemma StepKeepsInv(cfg: Config, init: Tables, c: State, step: Step)
    requires Replicable(cfg) && Inv(cfg, init, c) && Enabled(cfg, c, step)
    ensures Inv(cfg, init, Do(cfg, c, step))
  {
    StepKeepsWf(cfg, c, step);
    StepKeepsSnapshots(cfg, init, c, step);
    var c' := Do(cfg, c, step);
    forall n | 0 <= n < cfg.nodes
      ensures ImageInv(cfg, init, c', c'.nodes[n].db) && Writer(n, c'.nodes[n].epoch) in c'.nodes[n].db.carriers
    {
      StepKeepsNode(cfg, init, c, step, n);
    }
  }

  lemma {:induction false} RunKeepsInv(cfg: Config, init: Tables, c0: State, steps: seq<Step>, c: State)
    requires Replicable(cfg) && Inv(cfg, init, c0) && IsRun(cfg, c0, steps, c)
    ensures Inv(cfg, init, c)
    decreases |steps|
  {
    if |steps| == 0 {
    } else {
      RunHead(cfg, c0, steps, c);
      StepKeepsInv(cfg, init, c0, steps[0]);
      RunKeepsInv(cfg, init, Do(cfg, c0, steps[0]), steps[1..], c);
    }
  }

  // ---------- what an image grows into ----------

  /** Everything the carriers captured has been published. */
  ghost predicate Published(c: State, carriers: set<Writer>) {
    forall w :: w in carriers ==> QueueOf(c, w) == []
  }

  /** The database is what the shard logs say: under each key, the last message of its shard wins. */
  ghost predicate IsReplayOf(cfg: Config, init: Tables, logs: seq<seq<Msg>>, tables: Tables)
    requires WfConfig(cfg) && |logs| == cfg.shards
  {
    forall key :: Get(tables, key) == RowAfter(cfg.schema, logs[cfg.route(key)], key, Get(init, key))
  }

  /** An image that shows all of a key's shard has the right row. */
  lemma ShownRow(cfg: Config, init: Tables, c: State, image: Image, key: RowKey)
    requires WfConfig(cfg) && ImageInv(cfg, init, c, image) && !Pending(cfg, c, image.carriers, key)
    requires image.shown[cfg.route(key)] == |c.logs[cfg.route(key)]|
    ensures Get(image.tables, key) == RowAfter(cfg.schema, c.logs[cfg.route(key)], key, Get(init, key))
  {
    var s := cfg.route(key);
    assert RowInv(cfg, init, c, image, key);
    assert c.logs[s][..|c.logs[s]|] == c.logs[s];
  }

  lemma PublishedNotPending(cfg: Config, c: State, carriers: set<Writer>, key: RowKey)
    requires Published(c, carriers)
    ensures !Pending(cfg, c, carriers, key)
  {
  }
}
