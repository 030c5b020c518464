/**
 Progress: when the application stops writing, the cluster can always finish.

 From every state in which all nodes are on track, publishing, delivering and saving alone lead to
 a state in which every node is settled. Together with convergence this is eventual consistency.
 */
module Progress {
  import opened Wrappers
  import opened Runs
  import opened Rows
  import opened Replay
  import opened Cluster
  import opened Coverage
  import opened Convergence

  /**
   A step the system takes by itself, without new writes, crashes or discards. With snapshots
   enabled a node publishes to a shard when its listener has taken and saved what is there.
   */
  ghost predicate Quiet(cfg: Config, c: State, step: Step)
    requires Wf(cfg, c) && Enabled(cfg, c, step)
  {
    match step
    case Publish(n, _, _, stored) => stored == cfg.snapshots && Calm(cfg, c, step, n)
    case _ => step.Deliver? || step.SaveSeq? || step.Restart?
  }

  ghost function QuietNext(cfg: Config): (State, Step) -> Option<State> {
    (c, step) => if Wf(cfg, c) && Enabled(cfg, c, step) && Quiet(cfg, c, step) then Some(Do(cfg, c, step)) else None
  }

  ghost predicate QuietRun(cfg: Config, c0: State, steps: seq<Step>, c: State) {
    Path(QuietNext(cfg), c0, steps, c)
  }

  lemma QuietIsRun(cfg: Config, c0: State, steps: seq<Step>, c: State)
    requires QuietRun(cfg, c0, steps, c)
    ensures IsRun(cfg, c0, steps, c)
  {
    PathWiden(QuietNext(cfg), Next(cfg), c0, steps, c);
  }

  lemma QuietIsCalm(cfg: Config, c0: State, steps: seq<Step>, c: State, n: nat)
    requires QuietRun(cfg, c0, steps, c) && n < cfg.nodes
    ensures CalmRun(cfg, c0, steps, c, n)
  {
    PathWiden(QuietNext(cfg), CalmNext(cfg, n), c0, steps, c);
  }

  /** All nodes are on track and none has been restored. */
  ghost predicate Steady(cfg: Config, init: Tables, c: State) {
    Inv(cfg, init, c) && forall n :: 0 <= n < cfg.nodes ==> NodeOnTrack(cfg, c, n) && Own(c, n)
  }

  lemma StepKeepsSteady(cfg: Config, init: Tables, c: State, step: Step)
    requires Replicable(cfg) && Steady(cfg, init, c) && Enabled(cfg, c, step)
    requires forall n :: 0 <= n < cfg.nodes ==> Calm(cfg, c, step, n)
    ensures Steady(cfg, init, Do(cfg, c, step))
  {
    StepKeepsInv(cfg, init, c, step);
    forall n | 0 <= n < cfg.nodes ensures NodeOnTrack(cfg, Do(cfg, c, step), n) && Own(Do(cfg, c, step), n) {
      assert ImageInv(cfg, init, c, c.nodes[n].db);
      StepKeepsOwn(cfg, c, step, n);
      StepKeepsNodeOnTrack(cfg, c, step, n);
    }
  }

  lemma SoundIsSteady(cfg: Config, init: Tables, c: State)
    requires Sound(cfg, init, c)
    ensures Steady(cfg, init, c)
  {
    forall n | 0 <= n < cfg.nodes ensures NodeOnTrack(cfg, c, n) && Own(c, n) {
      assert NodeTight(cfg, c, n);
      forall s | 0 <= s < cfg.shards ensures OnTrack(PositionOf(c, n, s)) {
        assert Tight(PositionOf(c, n, s));
      }
    }
  }

  ghost predicate Leads(cfg: Config, c0: State, c: State) {
    Wf(cfg, c) && exists steps :: QuietRun(cfg, c0, steps, c)
  }

  lemma LeadsOn(cfg: Config, c0: State, c: State, step: Step)
    requires Leads(cfg, c0, c) && Enabled(cfg, c, step) && Quiet(cfg, c, step)
    ensures Leads(cfg, c0, Do(cfg, c, step))
  {
    StepKeepsWf(cfg, c, step);
    var c' := Do(cfg, c, step);
    var steps :| QuietRun(cfg, c0, steps, c);
    assert QuietRun(cfg, c, [step], c');
    PathAppend(QuietNext(cfg), c0, steps, c, [step], c');
    assert QuietRun(cfg, c0, steps + [step], c');
  }

  lemma LeadsSelf(cfg: Config, c: State)
    requires Wf(cfg, c)
    ensures Leads(cfg, c, c)
  {
    assert QuietRun(cfg, c, [], c);
  }

  lemma {:induction false} QuietKeepsSteady(cfg: Config, init: Tables, c0: State, steps: seq<Step>, c: State)
    requires Replicable(cfg) && Steady(cfg, init, c0) && QuietRun(cfg, c0, steps, c)
    ensures Steady(cfg, init, c)
    decreases |steps|
  {
    if |steps| == 0 {
    } else {
      StepKeepsSteady(cfg, init, c0, steps[0]);
      QuietKeepsSteady(cfg, init, Do(cfg, c0, steps[0]), steps[1..], c);
    }
  }

  lemma LeadsSteady(cfg: Config, init: Tables, c0: State, c: State)
    requires Replicable(cfg) && Steady(cfg, init, c0) && Leads(cfg, c0, c)
    ensures Steady(cfg, init, c)
  {
    var steps :| QuietRun(cfg, c0, steps, c);
    QuietKeepsSteady(cfg, init, c0, steps, c);
  }

  ghost predicate ShardSettled(c: State, n: nat, s: nat)
    requires n < |c.nodes| && s < |c.nodes[n].listeners| && s < |c.first| && s < |c.logs|
  {
    c.nodes[n].listeners[s].inflight == 0 && NextSeq(c.nodes[n].listeners[s], c.first[s]) > |c.logs[s]|
  }

  /** Nothing but node `n` has moved. */
  ghost predicate OnlyNode(c: State, c': State, n: nat)
    requires n < |c.nodes|
  {
    && c'.first == c.first && c'.snapshots == c.snapshots && c'.lost == c.lost
    && |c'.nodes| == |c.nodes| && c'.nodes == c.nodes[n := c'.nodes[n]]
  }

  /** Only the listener of shard `s` on node `n` has moved. */
  ghost predicate OnlyListener(c: State, c': State, n: nat, s: nat)
    requires n < |c.nodes|
  {
    && OnlyNode(c, c', n) && c'.logs == c.logs && SameWrites(c.nodes[n], c'.nodes[n])
    && |c'.nodes[n].listeners| == |c.nodes[n].listeners|
    && forall t :: 0 <= t < |c.nodes[n].listeners| && t != s ==>
         c'.nodes[n].listeners[t] == c.nodes[n].listeners[t]
  }

  /** A node has neither stopped nor written nor published. */
  predicate SameWrites(node: Node, node': Node) {
    node'.up == node.up && node'.queue == node.queue && node'.epoch == node.epoch
    && node'.db.carriers == node.db.carriers
  }

  /** No retained message of a log beyond position `from` concerns the row under `key`. */
  ghost predicate Free(schema: Schema, log: seq<Msg>, from: nat, first: nat, key: RowKey) {
    forall i :: from <= i < |log| && first <= i + 1 ==> MsgKey(schema, log[i]) != key
  }

  /** No message that node `n` may still apply concerns the row under `key`. */
  ghost predicate Ignores(cfg: Config, c: State, n: nat, key: RowKey) {
    n < |c.nodes| && |c.nodes[n].listeners| == |c.logs| == |c.first| == cfg.shards
    && forall s :: 0 <= s < cfg.shards ==> Free(cfg.schema, c.logs[s], c.nodes[n].listeners[s].saved, c.first[s], key)
  }

  /** Rows that concern no message left to apply are as they were. */
  ghost predicate RowsKept(cfg: Config, c: State, c': State, n: nat) {
    n < |c.nodes| && n < |c'.nodes|
    && forall key :: Ignores(cfg, c, n, key) ==>
      Ignores(cfg, c', n, key) && Get(c'.nodes[n].db.tables, key) == Get(c.nodes[n].db.tables, key)
  }

  /** Messages a listener still has to be delivered. */
  function Remaining(c: State, n: nat, s: nat): nat
    requires n < |c.nodes| && s < |c.nodes[n].listeners| && s < |c.first| && s < |c.logs|
  {
    var next := NextSeq(c.nodes[n].listeners[s], c.first[s]);
    if next > |c.logs[s]| then 0 else |c.logs[s]| + 1 - next
  }

  /** A listener's variable never exceeds what is saved. */
  ghost predicate Loaded(cfg: Config, c: State, n: nat) {
    n < |c.nodes| && LoadedNode(cfg, c.nodes[n])
  }

  ghost predicate LoadedNode(cfg: Config, node: Node) {
    |node.listeners| == |node.seqMap| == cfg.shards
    && forall s :: 0 <= s < cfg.shards ==> node.listeners[s].saved <= node.seqMap[s]
  }

  ghost predicate SavedGrows(cfg: Config, c: State, c': State, n: nat) {
    n < |c.nodes| && n < |c'.nodes| && |c.nodes[n].seqMap| == |c'.nodes[n].seqMap| == cfg.shards
    && forall s :: 0 <= s < cfg.shards ==> c.nodes[n].seqMap[s] <= c'.nodes[n].seqMap[s]
  }

  /** Node `n` has only consumed messages of shard `s`. */
  ghost predicate Consumes(cfg: Config, c: State, c': State, n: nat, s: nat) {
    n < |c.nodes| && OnlyListener(c, c', n, s) && RowsKept(cfg, c, c', n) && Loaded(cfg, c', n)
    && SavedGrows(cfg, c, c', n)
  }

  lemma TakeNext(cfg: Config, c0: State, c: State, n: nat, s: nat) returns (c': State)
    requires Leads(cfg, c0, c) && n < cfg.nodes && s < cfg.shards && c.nodes[n].up && Loaded(cfg, c, n)
    requires c.nodes[n].listeners[s].inflight == 0 && Remaining(c, n, s) > 0
    ensures Leads(cfg, c0, c') && Consumes(cfg, c, c', n, s) && Remaining(c', n, s) < Remaining(c, n, s)
  {
    var q := NextSeq(c.nodes[n].listeners[s], c.first[s]);
    LeadsOn(cfg, c0, c, Deliver(n, s, q));
    c' := Do(cfg, c, Deliver(n, s, q));
    forall key | Ignores(cfg, c, n, key)
      ensures Ignores(cfg, c', n, key) && Get(c'.nodes[n].db.tables, key) == Get(c.nodes[n].db.tables, key)
    {
    }
  }

  lemma SaveNext(cfg: Config, c0: State, c: State, n: nat, s: nat) returns (c': State)
    requires Leads(cfg, c0, c) && n < cfg.nodes && s < cfg.shards && c.nodes[n].up && Loaded(cfg, c, n)
    requires c.nodes[n].listeners[s].inflight != 0
    ensures Leads(cfg, c0, c') && Consumes(cfg, c, c', n, s)
    ensures Remaining(c', n, s) == Remaining(c, n, s) && c'.nodes[n].listeners[s].inflight == 0
  {
    LeadsOn(cfg, c0, c, SaveSeq(n, s));
    c' := Do(cfg, c, SaveSeq(n, s));
    forall key | Ignores(cfg, c, n, key)
      ensures Ignores(cfg, c', n, key) && Get(c'.nodes[n].db.tables, key) == Get(c.nodes[n].db.tables, key)
    {
    }
  }

  /** One listener consumes everything its shard holds. */
  lemma CatchUpShard(cfg: Config, c0: State, c: State, n: nat, s: nat) returns (c': State)
    requires Leads(cfg, c0, c) && n < cfg.nodes && s < cfg.shards && c.nodes[n].up && Loaded(cfg, c, n)
    ensures Leads(cfg, c0, c') && Consumes(cfg, c, c', n, s) && ShardSettled(c', n, s)
    decreases Remaining(c, n, s), c.nodes[n].listeners[s].inflight
  {
    if ShardSettled(c, n, s) {
      c' := c;
    } else if c.nodes[n].listeners[s].inflight != 0 {
      var c1 := SaveNext(cfg, c0, c, n, s);
      c' := CatchUpShard(cfg, c0, c1, n, s);
    } else {
      var c1 := TakeNext(cfg, c0, c, n, s);
      c' := CatchUpShard(cfg, c0, c1, n, s);
    }
  }

  /** Node `n` has consumed messages, and nothing else has happened. */
  ghost predicate CaughtUpFrom(cfg: Config, c: State, c': State, n: nat) {
    n < |c.nodes| && OnlyNode(c, c', n) && c'.logs == c.logs && SameWrites(c.nodes[n], c'.nodes[n])
    && RowsKept(cfg, c, c', n) && Loaded(cfg, c', n) && SavedGrows(cfg, c, c', n)
  }

  lemma SettledByShard(cfg: Config, c: State, n: nat)
    requires Wf(cfg, c) && n < cfg.nodes && c.nodes[n].up
    requires forall s :: 0 <= s < cfg.shards ==> ShardSettled(c, n, s)
    ensures c.nodes[n].queue == [] ==> Settled(cfg, c, n)
  {
    forall s | 0 <= s < cfg.shards
      ensures c.nodes[n].listeners[s].inflight == 0
           && NextSeq(c.nodes[n].listeners[s], c.first[s]) > |c.logs[s]|
    {
      assert ShardSettled(c, n, s);
    }
  }

  /** All listeners of one node consume everything, whatever the node has missed before. */
  lemma CatchUpNode(cfg: Config, c0: State, c: State, n: nat, done: nat) returns (c': State)
    requires Leads(cfg, c0, c) && n < cfg.nodes && c.nodes[n].up && c.nodes[n].queue == [] && Loaded(cfg, c, n)
    requires done <= cfg.shards && forall t :: 0 <= t < done ==> ShardSettled(c, n, t)
    ensures Leads(cfg, c0, c') && CaughtUpFrom(cfg, c, c', n) && Settled(cfg, c', n)
    decreases cfg.shards - done
  {
    if done == cfg.shards {
      c' := c;
      SettledByShard(cfg, c, n);
    } else {
      var c1 := CatchUpShard(cfg, c0, c, n, done);
      forall t | 0 <= t < done + 1 ensures ShardSettled(c1, n, t) {
        if t < done { assert ShardSettled(c, n, t); }
      }
      c' := CatchUpNode(cfg, c0, c1, n, done + 1);
    }
  }

  /** Everything is published on running nodes. */
  ghost predicate Drained(c: State) {
    forall n :: 0 <= n < |c.nodes| ==> c.nodes[n].up && c.nodes[n].queue == []
  }

  ghost predicate SettledUpTo(cfg: Config, c: State, done: nat)
    requires Wf(cfg, c) && done <= cfg.nodes
  {
    forall n :: 0 <= n < done ==> Settled(cfg, c, n)
  }

  lemma CatchUpAll(cfg: Config, c0: State, c: State, done: nat) returns (c': State)
    requires Leads(cfg, c0, c) && Drained(c) && forall n :: 0 <= n < cfg.nodes ==> Loaded(cfg, c, n)
    requires done <= cfg.nodes && SettledUpTo(cfg, c, done)
    ensures Leads(cfg, c0, c') && Drained(c') && SettledUpTo(cfg, c', cfg.nodes)
    ensures c'.logs == c.logs && c'.first == c.first && c'.snapshots == c.snapshots && c'.lost == c.lost
    decreases cfg.nodes - done
  {
    if done == cfg.nodes {
      c' := c;
    } else {
      var c1 := CatchUpNode(cfg, c0, c, done, 0);
      forall n | 0 <= n < cfg.nodes ensures Loaded(cfg, c1, n) {
        if n != done {
          assert Loaded(cfg, c, n) && c1.nodes[n] == c.nodes[n];
        }
      }
      forall n | 0 <= n < done + 1 ensures Settled(cfg, c1, n) {
        if n < done {
          assert Settled(cfg, c, n) && c1.nodes[n] == c.nodes[n];
        }
      }
      c' := CatchUpAll(cfg, c0, c1, done + 1);
    }
  }

  /** On track, a listener with nothing left to do has saved everything. */
  lemma SettledIsCurrent(cfg: Config, init: Tables, c: State, n: nat, s: nat)
    requires Steady(cfg, init, c) && n < cfg.nodes && s < cfg.shards && c.nodes[n].up && ShardSettled(c, n, s)
    ensures Current(c, n, s)
  {
    assert NodeOnTrack(cfg, c, n) && OnTrack(PositionOf(c, n, s));
    assert ImageInv(cfg, init, c, c.nodes[n].db);
  }

  lemma SteadyIsLoaded(cfg: Config, init: Tables, c: State, n: nat)
    requires Steady(cfg, init, c) && n < cfg.nodes && c.nodes[n].up
    ensures Loaded(cfg, c, n)
  {
    assert NodeOnTrack(cfg, c, n);
    forall s | 0 <= s < cfg.shards ensures c.nodes[n].listeners[s].saved <= c.nodes[n].seqMap[s] {
      assert OnTrack(PositionOf(c, n, s));
    }
  }

  lemma PublishQuietly(cfg: Config, c0: State, c: State, n: nat) returns (c': State)
    requires Leads(cfg, c0, c) && n < cfg.nodes && c.nodes[n].up && c.nodes[n].queue != []
    requires Current(c, n, cfg.route(EventKey(cfg.schema, c.nodes[n].queue[0])))
    ensures Leads(cfg, c0, c') && OnlyNode(c, c', n)
    ensures c'.nodes[n].up && c'.nodes[n].queue == c.nodes[n].queue[1..]
  {
    var step := Publish(n, 0, true, cfg.snapshots);
    LeadsOn(cfg, c0, c, step);
    c' := Do(cfg, c, step);
  }

  /** A running node publishes everything it has captured, catching up on a shard before it publishes to it. */
  lemma DrainNode(cfg: Config, init: Tables, c0: State, c: State, n: nat) returns (c': State)
    requires Replicable(cfg) && Steady(cfg, init, c0) && Leads(cfg, c0, c) && n < cfg.nodes && c.nodes[n].up
    ensures Leads(cfg, c0, c') && OnlyNode(c, c', n)
    ensures c'.nodes[n].up && c'.nodes[n].queue == []
    decreases |c.nodes[n].queue|
  {
    if c.nodes[n].queue == [] {
      c' := c;
    } else {
      LeadsSteady(cfg, init, c0, c);
      SteadyIsLoaded(cfg, init, c, n);
      var s := cfg.route(EventKey(cfg.schema, c.nodes[n].queue[0]));
      var c1 := CatchUpShard(cfg, c0, c, n, s);
      LeadsSteady(cfg, init, c0, c1);
      SettledIsCurrent(cfg, init, c1, n, s);
      var c2 := PublishQuietly(cfg, c0, c1, n);
      c' := DrainNode(cfg, init, c0, c2, n);
    }
  }

  ghost predicate AllUp(c: State) {
    forall n :: 0 <= n < |c.nodes| ==> c.nodes[n].up
  }

  lemma DrainAll(cfg: Config, init: Tables, c0: State, c: State, done: nat) returns (c': State)
    requires Replicable(cfg) && Steady(cfg, init, c0) && Leads(cfg, c0, c) && done <= cfg.nodes && AllUp(c)
    requires forall n :: 0 <= n < done ==> c.nodes[n].queue == []
    ensures Leads(cfg, c0, c') && Drained(c')
    decreases cfg.nodes - done
  {
    if done == cfg.nodes {
      c' := c;
    } else {
      var c1 := DrainNode(cfg, init, c0, c, done);
      assert forall n :: 0 <= n < cfg.nodes && n != done ==> c1.nodes[n] == c.nodes[n];
      c' := DrainAll(cfg, init, c0, c1, done + 1);
    }
  }

  /** No node that is down has to be restored before it can start. */
  ghost predicate CanStart(cfg: Config, c: State)
    requires Wf(cfg, c)
  {
    cfg.snapshots && |c.snapshots| > 0 ==> forall n :: 0 <= n < cfg.nodes ==> c.nodes[n].up || !Gapped(c, n)
  }

  lemma StartOne(cfg: Config, c0: State, c: State, n: nat) returns (c': State)
    requires Leads(cfg, c0, c) && CanStart(cfg, c) && n < cfg.nodes && !c.nodes[n].up
    ensures Leads(cfg, c0, c') && OnlyNode(c, c', n) && c'.logs == c.logs
    ensures c'.nodes[n].up && c'.nodes[n].queue == c.nodes[n].queue && c'.nodes[n].seqMap == c.nodes[n].seqMap
  {
    LeadsOn(cfg, c0, c, Restart(n));
    c' := Do(cfg, c, Restart(n));
  }

  lemma StartAll(cfg: Config, c0: State, c: State, done: nat) returns (c': State)
    requires Leads(cfg, c0, c) && CanStart(cfg, c) && done <= cfg.nodes
    requires forall n :: 0 <= n < done ==> c.nodes[n].up
    ensures Leads(cfg, c0, c') && AllUp(c') && c'.logs == c.logs && c'.first == c.first
    ensures c'.snapshots == c.snapshots && |c'.nodes| == |c.nodes|
    ensures forall n :: 0 <= n < cfg.nodes ==> c'.nodes[n].queue == c.nodes[n].queue
    decreases cfg.nodes - done
  {
    if done == cfg.nodes {
      c' := c;
    } else if c.nodes[done].up {
      c' := StartAll(cfg, c0, c, done + 1);
    } else {
      var c1 := StartOne(cfg, c0, c, done);
      forall n | 0 <= n < cfg.nodes ensures Gapped(c1, n) <==> Gapped(c, n) {
      }
      c' := StartAll(cfg, c0, c1, done + 1);
    }
  }

  lemma SteadySettles(cfg: Config, init: Tables, c: State, n: nat)
    requires Steady(cfg, init, c) && n < cfg.nodes && Settled(cfg, c, n)
    ensures IsReplayOf(cfg, init, c.logs, c.nodes[n].db.tables)
  {
    OnTrackSettles(cfg, init, c, n);
  }

  /** From every steady state whose nodes can start, the system can finish by itself. */
  lemma Finishes(cfg: Config, init: Tables, c: State) returns (quiet: seq<Step>, c': State)
    requires Replicable(cfg) && Steady(cfg, init, c) && CanStart(cfg, c)
    ensures QuietRun(cfg, c, quiet, c') && Steady(cfg, init, c') && SettledUpTo(cfg, c', cfg.nodes)
  {
    LeadsSelf(cfg, c);
    var c1 := StartAll(cfg, c, c, 0);
    var c2 := DrainAll(cfg, init, c, c1, 0);
    LeadsSteady(cfg, init, c, c2);
    forall n | 0 <= n < cfg.nodes ensures Loaded(cfg, c2, n) {
      SteadyIsLoaded(cfg, init, c2, n);
    }
    c' := CatchUpAll(cfg, c, c2, 0);
    LeadsSteady(cfg, init, c, c');
    quiet :| QuietRun(cfg, c, quiet, c');
  }

  /** A run that was calm for every node has kept all nodes on track. */
  lemma CalmIsSteady(cfg: Config, init: Tables, steps: seq<Step>, c: State)
    requires Replicable(cfg) && WfConfig(cfg) && IsRun(cfg, Start(cfg, init), steps, c)
    requires forall n :: 0 <= n < cfg.nodes ==> CalmRun(cfg, Start(cfg, init), steps, c, n)
    ensures Steady(cfg, init, c)
  {
    StartInv(cfg, init);
    RunKeepsInv(cfg, init, Start(cfg, init), steps, c);
    forall n | 0 <= n < cfg.nodes ensures NodeOnTrack(cfg, c, n) && Own(c, n) {
      StartOnTrack(cfg, init, n);
      CalmRunKeeps(cfg, init, Start(cfg, init), steps, c, n);
      forall s | 0 <= s < cfg.shards ensures OnTrack(PositionOf(c, n, s)) {
        assert Tight(PositionOf(Start(cfg, init), n, s));
      }
    }
  }

  lemma SettledAgree(cfg: Config, init: Tables, c: State)
    requires Steady(cfg, init, c) && SettledUpTo(cfg, c, cfg.nodes)
    ensures forall n :: 0 <= n < cfg.nodes ==> IsReplayOf(cfg, init, c.logs, c.nodes[n].db.tables)
    ensures forall n, m :: 0 <= n < cfg.nodes && 0 <= m < cfg.nodes ==>
              c.nodes[n].db.tables == c.nodes[m].db.tables
  {
    forall n | 0 <= n < cfg.nodes ensures IsReplayOf(cfg, init, c.logs, c.nodes[n].db.tables) {
      SteadySettles(cfg, init, c, n);
    }
    forall n, m | 0 <= n < cfg.nodes && 0 <= m < cfg.nodes ensures c.nodes[n].db.tables == c.nodes[m].db.tables {
      SameRowsSameTables(c.nodes[n].db.tables, c.nodes[m].db.tables);
    }
  }

  /**
   Eventual consistency with snapshots enabled: from every state that a run calm for all nodes can
   reach and in which no node has to be restored, the system can finish by itself, and then all
   nodes hold the same database, the replay of the shard logs.
   */
  lemma CalmConsistency(cfg: Config, init: Tables, steps: seq<Step>, c: State)
      returns (quiet: seq<Step>, c': State)
    requires Replicable(cfg) && WfConfig(cfg) && IsRun(cfg, Start(cfg, init), steps, c)
    requires forall n :: 0 <= n < cfg.nodes ==> CalmRun(cfg, Start(cfg, init), steps, c, n)
    requires Wf(cfg, c) && CanStart(cfg, c)
    ensures QuietRun(cfg, c, quiet, c') && Wf(cfg, c') && SettledUpTo(cfg, c', cfg.nodes)
    ensures forall n :: 0 <= n < cfg.nodes ==> IsReplayOf(cfg, init, c'.logs, c'.nodes[n].db.tables)
    ensures forall n, m :: 0 <= n < cfg.nodes && 0 <= m < cfg.nodes ==>
              c'.nodes[n].db.tables == c'.nodes[m].db.tables
  {
    CalmIsSteady(cfg, init, steps, c);
    quiet, c' := Finishes(cfg, init, c);
    SettledAgree(cfg, init, c');
  }

  /**
   Eventual consistency: from every state a fault-free run can reach, the system can finish by
   itself, and then all nodes hold the same database, the replay of the shard logs.
   */
  lemma EventualConsistency(cfg: Config, init: Tables, steps: seq<Step>, c: State)
      returns (quiet: seq<Step>, c': State)
    requires Faultless(cfg) && WfConfig(cfg) && IsRun(cfg, Start(cfg, init), steps, c)
    ensures QuietRun(cfg, c, quiet, c') && Wf(cfg, c')
    ensures SettledUpTo(cfg, c', cfg.nodes)
    ensures forall n :: 0 <= n < cfg.nodes ==> IsReplayOf(cfg, init, c'.logs, c'.nodes[n].db.tables)
    ensures forall n, m :: 0 <= n < cfg.nodes && 0 <= m < cfg.nodes ==>
              c'.nodes[n].db.tables == c'.nodes[m].db.tables
  {
    StartSound(cfg, init);
    RunKeepsSound(cfg, init, Start(cfg, init), steps, c);
    SoundIsSteady(cfg, init, c);
    quiet, c' := Finishes(cfg, init, c);
    SettledAgree(cfg, init, c');
  }
}
