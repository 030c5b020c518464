/**
 Convergence and crash safety.

 A node is on track when its listeners will take up every message its database does not show yet.
 A node leaves the track only by saving a sequence when it publishes before its listener has caught
 up, by stopping before it has taken its own message back, by a discard of a message it does not
 have, and by being restored from a snapshot. A settled node that is on track holds the replay of
 the shard logs.
 */
module Convergence {
  import opened Wrappers
  import opened Rows
  import opened Replay
  import opened Runs
  import opened Cluster
  import opened Coverage

  // ---------- positions of one listener ----------

  /** One shard as one node sees it. */
  datatype Position = Position(up: bool, l: Listener, saved: nat, shown: nat, reach: nat, first: nat, last: nat)

  function PositionOf(c: State, n: nat, s: nat): Position
    requires n < |c.nodes| && s < |c.logs| == |c.first| == |c.nodes[n].listeners| == |c.nodes[n].seqMap|
    requires s < |c.nodes[n].db.shown| == |c.nodes[n].db.reach|
  {
    var node := c.nodes[n];
    Position(node.up, node.listeners[s], node.seqMap[s], node.db.shown[s], node.db.reach[s], c.first[s],
             |c.logs[s]|)
  }

  /**
   Whatever the database does not show is not discarded, and it is not saved either, except for
   one message that the node published itself and that its listener is about to take.
   */
  predicate OnTrack(p: Position) {
    && p.first <= p.shown + 1
    && if !p.up then p.saved <= p.shown
       else if p.l.inflight == 0 then
         p.l.cursor <= p.l.saved <= p.shown
         && (p.saved == p.l.saved || p.saved == p.l.saved + 1 == p.shown + 1 <= p.last)
       else
         p.l.inflight == p.l.cursor == p.shown && p.l.saved < p.shown
         && (p.saved == p.l.saved || p.saved == p.l.saved + 1 == p.shown)
  }

  /** At most one message is applied but not saved, and none beyond it. */
  predicate Tight(p: Position) {
    && OnTrack(p) && p.saved <= p.reach == p.shown <= p.saved + 1 && p.first <= p.saved + 1
    && (p.up ==> p.l.saved == p.saved) && (p.up && p.l.inflight != 0 ==> p.l.inflight == p.saved + 1)
  }

  ghost predicate NodeOnTrack(cfg: Config, c: State, n: nat)
    requires Wf(cfg, c) && n < cfg.nodes
  {
    forall s :: 0 <= s < cfg.shards ==> OnTrack(PositionOf(c, n, s))
  }

  ghost predicate NodeTight(cfg: Config, c: State, n: nat)
    requires Wf(cfg, c) && n < cfg.nodes
  {
    forall s :: 0 <= s < cfg.shards ==> Tight(PositionOf(c, n, s))
  }

  /** The node was never restored, and its database holds unpublished changes of its own only. */
  predicate Own(c: State, n: nat)
    requires n < |c.nodes|
  {
    c.nodes[n].epoch == 0 && c.nodes[n].db.carriers == {Writer(n, 0)}
  }

  /** Nothing node `n` has saved is missing from its database. */
  ghost predicate Safe(cfg: Config, c: State, n: nat) {
    n < |c.nodes| && |c.nodes[n].seqMap| == |c.nodes[n].db.shown| == cfg.shards
    && forall s :: 0 <= s < cfg.shards ==> c.nodes[n].seqMap[s] <= c.nodes[n].db.shown[s]
  }

  /** The listener of shard `s` on node `n` has taken and saved everything on the stream. */
  ghost predicate Current(c: State, n: nat, s: nat) {
    n < |c.nodes| && s < |c.nodes[n].listeners| && s < |c.logs|
    && c.nodes[n].listeners[s].inflight == 0 && c.nodes[n].listeners[s].saved == |c.logs[s]|
  }

  /**
   A step that cannot take node `n` off its track: it publishes only where its listener is current
   if publishing saves, its process ends only when nothing is saved that its database lacks, its
   database is not replaced, and the streams do not drop what it has not applied.
   */
  ghost predicate Calm(cfg: Config, c: State, step: Step, n: nat)
    requires Wf(cfg, c) && Enabled(cfg, c, step) && n < cfg.nodes
  {
    match step
    case Publish(m, i, _, stored) =>
      m == n && cfg.snapshots ==>
        if stored then Current(c, n, cfg.route(EventKey(cfg.schema, c.nodes[n].queue[i]))) else Safe(cfg, c, n)
    case Crash(m) => m == n ==> Safe(cfg, c, n)
    case Restore(m, _) => m != n
    case Discard(s) => c.first[s] <= c.nodes[n].db.shown[s]
    case _ => true
  }

  /** Where a listener that is on track gets to by a delivery. */
  function Delivered(p: Position, q: nat): Position {
    var l := p.l.(cursor := Max(p.l.cursor, q));
    if q <= p.l.saved then p.(l := l)
    else p.(l := l.(inflight := q, applied := l.applied + [q]),
            shown := if q <= p.shown + 1 then q else p.shown, reach := Max(p.reach, q))
  }

  /** On track, a listener applies only messages up to the next one its database does not show. */
  lemma AppliesNext(p: Position, q: nat)
    requires OnTrack(p) && p.up && p.l.inflight == 0 && p.first <= q
    requires q <= p.l.cursor || q == NextSeq(p.l, p.first)
    ensures q > p.l.saved ==> q <= p.shown + 1
    ensures q > p.l.saved && Tight(p) ==> q == p.saved + 1
    ensures OnTrack(Delivered(p, q)) && (Tight(p) ==> Tight(Delivered(p, q)))
  {
  }

  lemma DeliveredPosition(cfg: Config, c: State, m: nat, t: nat, q: nat, n: nat, s: nat)
    requires Wf(cfg, c) && Enabled(cfg, c, Deliver(m, t, q)) && n < cfg.nodes && s < cfg.shards
    ensures var c' := Do(cfg, c, Deliver(m, t, q));
            Wf(cfg, c') && PositionOf(c', n, s)
            == if m == n && t == s then Delivered(PositionOf(c, n, s), q) else PositionOf(c, n, s)
  {
    DeliverKeepsWf(cfg, c, m, t, q);
  }

  lemma DeliverKeepsTrack(cfg: Config, c: State, m: nat, t: nat, q: nat, n: nat, s: nat)
    requires Wf(cfg, c) && Enabled(cfg, c, Deliver(m, t, q)) && n < cfg.nodes && s < cfg.shards
    requires OnTrack(PositionOf(c, n, s))
    ensures var c' := Do(cfg, c, Deliver(m, t, q));
            Wf(cfg, c') && OnTrack(PositionOf(c', n, s))
            && (Tight(PositionOf(c, n, s)) ==> Tight(PositionOf(c', n, s)))
  {
    DeliveredPosition(cfg, c, m, t, q, n, s);
    if m == n && t == s {
      AppliesNext(PositionOf(c, n, s), q);
    }
  }

  lemma PublishKeepsTrack(cfg: Config, c: State, step: Step, n: nat, s: nat)
    requires Wf(cfg, c) && step.Publish? && Enabled(cfg, c, step) && n < cfg.nodes && s < cfg.shards
    requires Calm(cfg, c, step, n) && OnTrack(PositionOf(c, n, s)) && c.nodes[n].db.shown[s] <= |c.logs[s]|
    ensures var c' := Do(cfg, c, step);
            Wf(cfg, c') && OnTrack(PositionOf(c', n, s))
            && (!cfg.snapshots && Tight(PositionOf(c, n, s)) ==> Tight(PositionOf(c', n, s)))
  {
    StepKeepsWf(cfg, c, step);
  }

  lemma SaveKeepsTrack(cfg: Config, c: State, step: Step, n: nat, s: nat)
    requires Wf(cfg, c) && step.SaveSeq? && Enabled(cfg, c, step) && n < cfg.nodes && s < cfg.shards
    requires OnTrack(PositionOf(c, n, s))
    ensures var c' := Do(cfg, c, step);
            Wf(cfg, c') && OnTrack(PositionOf(c', n, s))
            && (Tight(PositionOf(c, n, s)) ==> Tight(PositionOf(c', n, s)))
  {
    StepKeepsWf(cfg, c, step);
  }

  lemma DiscardKeepsTrack(cfg: Config, c: State, step: Step, n: nat, s: nat)
    requires Wf(cfg, c) && step.Discard? && Enabled(cfg, c, step) && n < cfg.nodes && s < cfg.shards
    requires Calm(cfg, c, step, n) && OnTrack(PositionOf(c, n, s))
    ensures var c' := Do(cfg, c, step);
            Wf(cfg, c') && OnTrack(PositionOf(c', n, s))
            && (!cfg.earlyDiscard && Tight(PositionOf(c, n, s)) ==> Tight(PositionOf(c', n, s)))
  {
    StepKeepsWf(cfg, c, step);
  }

  /** Crashing and restarting forget what is in flight, and no other step concerns a listener. */
  lemma OtherKeepsTrack(cfg: Config, c: State, step: Step, n: nat, s: nat)
    requires Wf(cfg, c) && Enabled(cfg, c, step) && n < cfg.nodes && s < cfg.shards && Calm(cfg, c, step, n)
    requires !step.Publish? && !step.Deliver? && !step.SaveSeq? && !step.Discard?
    ensures var c' := Do(cfg, c, step);
            var p, p' := PositionOf(c, n, s), PositionOf(c', n, s);
            Wf(cfg, c') && (p' == p || (p' == p.(up := false) && p.saved <= p.shown)
                            || (p' == p.(up := true, l := FreshListener(p.saved)) && !p.up))
  {
    StepKeepsWf(cfg, c, step);
  }

  /** Only listeners save, and streams keep what some node has not saved. */
  predicate Lasting(cfg: Config) {
    !cfg.snapshots && !cfg.earlyDiscard
  }

  /** A calm step keeps node `n` on track. */
  lemma StepKeepsTrack(cfg: Config, c: State, step: Step, n: nat, s: nat)
    requires Wf(cfg, c) && Enabled(cfg, c, step) && n < cfg.nodes && s < cfg.shards && Calm(cfg, c, step, n)
    requires OnTrack(PositionOf(c, n, s)) && c.nodes[n].db.shown[s] <= |c.logs[s]|
    ensures var c' := Do(cfg, c, step);
            Wf(cfg, c') && OnTrack(PositionOf(c', n, s))
            && (Lasting(cfg) && Tight(PositionOf(c, n, s)) ==> Tight(PositionOf(c', n, s)))
  {
    StepKeepsWf(cfg, c, step);
    if step.Deliver? {
      DeliverKeepsTrack(cfg, c, step.n, step.s, step.q, n, s);
    } else if step.Publish? {
      PublishKeepsTrack(cfg, c, step, n, s);
    } else if step.SaveSeq? {
      SaveKeepsTrack(cfg, c, step, n, s);
    } else if step.Discard? {
      DiscardKeepsTrack(cfg, c, step, n, s);
    } else {
      OtherKeepsTrack(cfg, c, step, n, s);
    }
  }

  lemma StepKeepsOwn(cfg: Config, c: State, step: Step, n: nat)
    requires Wf(cfg, c) && Enabled(cfg, c, step) && n < cfg.nodes && Calm(cfg, c, step, n)
    ensures var c' := Do(cfg, c, step);
            |c'.nodes| == cfg.nodes && c'.nodes[n].epoch == c.nodes[n].epoch
            && c'.nodes[n].db.carriers == c.nodes[n].db.carriers
  {
  }

  lemma StepKeepsNodeOnTrack(cfg: Config, c: State, step: Step, n: nat)
    requires Wf(cfg, c) && Enabled(cfg, c, step) && n < cfg.nodes && Calm(cfg, c, step, n) && NodeOnTrack(cfg, c, n)
    requires forall s :: 0 <= s < cfg.shards ==> c.nodes[n].db.shown[s] <= |c.logs[s]|
    ensures Wf(cfg, Do(cfg, c, step)) && NodeOnTrack(cfg, Do(cfg, c, step), n)
    ensures Lasting(cfg) && NodeTight(cfg, c, n) ==> NodeTight(cfg, Do(cfg, c, step), n)
  {
    StepKeepsWf(cfg, c, step);
    forall s | 0 <= s < cfg.shards
      ensures OnTrack(PositionOf(Do(cfg, c, step), n, s))
      ensures Lasting(cfg) && Tight(PositionOf(c, n, s)) ==> Tight(PositionOf(Do(cfg, c, step), n, s))
    {
      StepKeepsTrack(cfg, c, step, n, s);
    }
  }

  // ---------- runs that are calm for one node ----------

  ghost function CalmNext(cfg: Config, n: nat): (State, Step) -> Option<State> {
    (c, step) =>
      if Wf(cfg, c) && n < cfg.nodes && Enabled(cfg, c, step) && Calm(cfg, c, step, n) then Some(Do(cfg, c, step))
      else None
  }

  /** A run without a step that could take node `n` off its track. */
  ghost predicate CalmRun(cfg: Config, c0: State, steps: seq<Step>, c: State, n: nat) {
    Path(CalmNext(cfg, n), c0, steps, c)
  }

  lemma CalmHead(cfg: Config, c0: State, steps: seq<Step>, c: State, n: nat)
    requires CalmRun(cfg, c0, steps, c, n) && |steps| > 0
    ensures Wf(cfg, c0) && n < cfg.nodes && Enabled(cfg, c0, steps[0]) && Calm(cfg, c0, steps[0], n)
    ensures CalmRun(cfg, Do(cfg, c0, steps[0]), steps[1..], c, n)
  {
  }

  lemma {:induction false} CalmRunKeeps(cfg: Config, init: Tables, c0: State, steps: seq<Step>, c: State, n: nat)
    requires Replicable(cfg) && Inv(cfg, init, c0) && n < cfg.nodes && CalmRun(cfg, c0, steps, c, n)
    ensures Inv(cfg, init, c) && c.nodes[n].db.carriers == c0.nodes[n].db.carriers
    ensures c.nodes[n].epoch == c0.nodes[n].epoch
    ensures forall s :: 0 <= s < cfg.shards && OnTrack(PositionOf(c0, n, s)) ==> OnTrack(PositionOf(c, n, s))
    decreases |steps|
  {
    if |steps| == 0 {
    } else {
      CalmHead(cfg, c0, steps, c, n);
      var c1 := Do(cfg, c0, steps[0]);
      StepKeepsInv(cfg, init, c0, steps[0]);
      StepKeepsOwn(cfg, c0, steps[0], n);
      CalmRunKeeps(cfg, init, c1, steps[1..], c, n);
      forall s | 0 <= s < cfg.shards && OnTrack(PositionOf(c0, n, s)) ensures OnTrack(PositionOf(c, n, s)) {
        assert ImageInv(cfg, init, c0, c0.nodes[n].db);
        StepKeepsTrack(cfg, c0, steps[0], n, s);
      }
    }
  }

  // ---------- settled nodes ----------

  /** Nothing captured is unpublished, and every retained message has been delivered and saved. */
  ghost predicate Settled(cfg: Config, c: State, n: nat)
    requires Wf(cfg, c) && n < cfg.nodes
  {
    c.nodes[n].up && c.nodes[n].queue == []
    && forall s :: 0 <= s < cfg.shards ==>
         c.nodes[n].listeners[s].inflight == 0
         && NextSeq(c.nodes[n].listeners[s], c.first[s]) > |c.logs[s]|
  }

  /** A row of a shard on which a settled node is on track. */
  lemma SettledRow(cfg: Config, init: Tables, c: State, n: nat, key: RowKey)
    requires Inv(cfg, init, c) && n < cfg.nodes && Settled(cfg, c, n)
    requires OnTrack(PositionOf(c, n, cfg.route(key))) && Published(c, c.nodes[n].db.carriers)
    ensures Get(c.nodes[n].db.tables, key)
         == RowAfter(cfg.schema, c.logs[cfg.route(key)], key, Get(init, key))
  {
    var s := cfg.route(key);
    assert ImageInv(cfg, init, c, c.nodes[n].db);
    assert c.nodes[n].db.shown[s] <= |c.logs[s]|;
    PublishedNotPending(cfg, c, c.nodes[n].db.carriers, key);
    ShownRow(cfg, init, c, c.nodes[n].db, key);
  }

  lemma OnTrackSettles(cfg: Config, init: Tables, c: State, n: nat)
    requires Inv(cfg, init, c) && n < cfg.nodes && Settled(cfg, c, n) && NodeOnTrack(cfg, c, n)
    requires Published(c, c.nodes[n].db.carriers)
    ensures IsReplayOf(cfg, init, c.logs, c.nodes[n].db.tables)
  {
    forall key
      ensures Get(c.nodes[n].db.tables, key)
           == RowAfter(cfg.schema, c.logs[cfg.route(key)], key, Get(init, key))
    {
      SettledRow(cfg, init, c, n, key);
    }
  }

  lemma StartOnTrack(cfg: Config, init: Tables, n: nat)
    requires WfConfig(cfg) && n < cfg.nodes
    ensures Wf(cfg, Start(cfg, init)) && NodeTight(cfg, Start(cfg, init), n) && Own(Start(cfg, init), n)
  {
  }

  /**
   Last arrival wins, node by node: whatever happens elsewhere, snapshots and early discards
   included, a settled node whose own run was calm holds exactly the replay of the shard logs over
   the initial database.
   */
  lemma CalmSettlesToReplay(cfg: Config, init: Tables, steps: seq<Step>, c: State, n: nat)
    requires Replicable(cfg) && WfConfig(cfg) && n < cfg.nodes && CalmRun(cfg, Start(cfg, init), steps, c, n)
    ensures Wf(cfg, c)
    ensures Settled(cfg, c, n) ==> IsReplayOf(cfg, init, c.logs, c.nodes[n].db.tables)
  {
    StartInv(cfg, init);
    StartOnTrack(cfg, init, n);
    CalmRunKeeps(cfg, init, Start(cfg, init), steps, c, n);
    if Settled(cfg, c, n) {
      assert NodeOnTrack(cfg, c, n) by {
        forall s | 0 <= s < cfg.shards ensures OnTrack(PositionOf(c, n, s)) {
          assert Tight(PositionOf(Start(cfg, init), n, s));
        }
      }
      OnTrackSettles(cfg, init, c, n);
    }
  }

  /** Two settled nodes whose own runs were calm hold equal databases, snapshots enabled or not. */
  lemma CalmNodesAgree(cfg: Config, init: Tables, steps: seq<Step>, c: State, a: nat, b: nat)
    requires Replicable(cfg) && WfConfig(cfg) && a < cfg.nodes && b < cfg.nodes && Wf(cfg, c)
    requires CalmRun(cfg, Start(cfg, init), steps, c, a) && CalmRun(cfg, Start(cfg, init), steps, c, b)
    requires Settled(cfg, c, a) && Settled(cfg, c, b)
    ensures c.nodes[a].db.tables == c.nodes[b].db.tables
  {
    CalmSettlesToReplay(cfg, init, steps, c, a);
    CalmSettlesToReplay(cfg, init, steps, c, b);
    SameRowsSameTables(c.nodes[a].db.tables, c.nodes[b].db.tables);
  }

  // ---------- with every switch off, all runs are calm ----------

  ghost predicate Sound(cfg: Config, init: Tables, c: State) {
    Inv(cfg, init, c) && forall n :: 0 <= n < cfg.nodes ==> NodeTight(cfg, c, n) && Own(c, n)
  }

  lemma FaultlessIsCalm(cfg: Config, c: State, step: Step, n: nat)
    requires Faultless(cfg) && Wf(cfg, c) && Enabled(cfg, c, step) && n < cfg.nodes && NodeTight(cfg, c, n)
    ensures Calm(cfg, c, step, n)
  {
    if step.Discard? {
      assert Tight(PositionOf(c, n, step.s));
    }
    forall s | 0 <= s < cfg.shards ensures c.nodes[n].seqMap[s] <= c.nodes[n].db.shown[s] {
      assert Tight(PositionOf(c, n, s));
    }
  }

  lemma StepKeepsSound(cfg: Config, init: Tables, c: State, step: Step)
    requires Faultless(cfg) && Sound(cfg, init, c) && Enabled(cfg, c, step)
    ensures Sound(cfg, init, Do(cfg, c, step))
  {
    StepKeepsInv(cfg, init, c, step);
    forall n | 0 <= n < cfg.nodes ensures NodeTight(cfg, Do(cfg, c, step), n) && Own(Do(cfg, c, step), n) {
      FaultlessIsCalm(cfg, c, step, n);
      assert ImageInv(cfg, init, c, c.nodes[n].db);
      StepKeepsOwn(cfg, c, step, n);
      StepKeepsNodeOnTrack(cfg, c, step, n);
    }
  }

  lemma StartSound(cfg: Config, init: Tables)
    requires WfConfig(cfg)
    ensures Sound(cfg, init, Start(cfg, init))
  {
    StartInv(cfg, init);
    forall n | 0 <= n < cfg.nodes ensures NodeTight(cfg, Start(cfg, init), n) && Own(Start(cfg, init), n) {
      StartOnTrack(cfg, init, n);
    }
  }

  lemma {:induction false} RunKeepsSound(cfg: Config, init: Tables, c0: State, steps: seq<Step>, c: State)
    requires Faultless(cfg) && Sound(cfg, init, c0) && IsRun(cfg, c0, steps, c)
    ensures Sound(cfg, init, c)
    decreases |steps|
  {
    if |steps| == 0 {
    } else {
      RunHead(cfg, c0, steps, c);
      StepKeepsSound(cfg, init, c0, steps[0]);
      RunKeepsSound(cfg, init, Do(cfg, c0, steps[0]), steps[1..], c);
    }
  }

  lemma SoundSettles(cfg: Config, init: Tables, c: State, n: nat)
    requires Sound(cfg, init, c) && n < cfg.nodes && Settled(cfg, c, n)
    ensures IsReplayOf(cfg, init, c.logs, c.nodes[n].db.tables)
  {
    assert NodeTight(cfg, c, n) && Own(c, n);
    forall s | 0 <= s < cfg.shards ensures OnTrack(PositionOf(c, n, s)) {
      assert Tight(PositionOf(c, n, s));
    }
    OnTrackSettles(cfg, init, c, n);
  }

  /** In every fault-free run a settled node holds exactly the replay of the shard logs. */
  lemma SettledIsReplay(cfg: Config, init: Tables, steps: seq<Step>, c: State, n: nat)
    requires Faultless(cfg) && WfConfig(cfg) && n < cfg.nodes
    requires IsRun(cfg, Start(cfg, init), steps, c)
    ensures Wf(cfg, c)
    ensures Settled(cfg, c, n) ==> IsReplayOf(cfg, init, c.logs, c.nodes[n].db.tables)
  {
    StartSound(cfg, init);
    RunKeepsSound(cfg, init, Start(cfg, init), steps, c);
    if Settled(cfg, c, n) {
      SoundSettles(cfg, init, c, n);
    }
  }

  /** Settled nodes hold the same database, namely that of any interleaving of the shard logs. */
  lemma SettledMatchesInterleaving(cfg: Config, init: Tables, steps: seq<Step>, c: State, n: nat, merged: seq<Msg>)
    requires Faultless(cfg) && WfConfig(cfg) && n < cfg.nodes
    requires IsRun(cfg, Start(cfg, init), steps, c)
    requires Wf(cfg, c) && Settled(cfg, c, n)
    requires Interleaves(cfg.schema, cfg.route, c.logs, merged)
    ensures c.nodes[n].db.tables == Run(cfg.schema, init, merged)
  {
    SettledIsReplay(cfg, init, steps, c, n);
    forall key ensures Get(c.nodes[n].db.tables, key) == Get(Run(cfg.schema, init, merged), key) {
      InterleavingRow(cfg.schema, cfg.route, c.logs, merged, init, key);
    }
    SameRowsSameTables(c.nodes[n].db.tables, Run(cfg.schema, init, merged));
  }

  /** In every run, any two nodes that are settled hold equal databases. */
  ghost predicate Convergent(cfg: Config) {
    forall init, steps, c, a: nat, b: nat ::
      IsRun(cfg, Start(cfg, init), steps, c) && Wf(cfg, c) && a < cfg.nodes && b < cfg.nodes
      && Settled(cfg, c, a) && Settled(cfg, c, b)
      ==> c.nodes[a].db.tables == c.nodes[b].db.tables
  }

  lemma FaultlessConverges(cfg: Config)
    requires Faultless(cfg) && WfConfig(cfg)
    ensures Convergent(cfg)
  {
    forall init, steps, c, a: nat, b: nat |
      IsRun(cfg, Start(cfg, init), steps, c) && Wf(cfg, c) && a < cfg.nodes && b < cfg.nodes
      && Settled(cfg, c, a) && Settled(cfg, c, b)
      ensures c.nodes[a].db.tables == c.nodes[b].db.tables
    {
      SettledIsReplay(cfg, init, steps, c, a);
      SettledIsReplay(cfg, init, steps, c, b);
      SameRowsSameTables(c.nodes[a].db.tables, c.nodes[b].db.tables);
    }
  }

  // ---------- crash safety ----------

  /** A local write of node `n` to `key` is captured or published but has not come back yet. */
  ghost predicate Outstanding(cfg: Config, c: State, n: nat, key: RowKey)
    requires Wf(cfg, c) && n < cfg.nodes
  {
    var log := c.logs[cfg.route(key)];
    HasKey(cfg, c.nodes[n].queue, key)
    || exists i :: c.nodes[n].db.shown[cfg.route(key)] <= i < |log|
         && log[i].from == n && MsgKey(cfg.schema, log[i]) == key
  }

  /**
   Crash safety: however often nodes crashed between applying, saving and acknowledging, the
   applied position is the saved one or one further, every message after the saved one is still
   retained, and every row is the replay up to the applied position unless a write of the node's
   own to that row has yet to come back.
   */
  lemma CrashSafety(cfg: Config, init: Tables, steps: seq<Step>, c: State, n: nat)
    requires Faultless(cfg) && WfConfig(cfg) && n < cfg.nodes
    requires IsRun(cfg, Start(cfg, init), steps, c)
    ensures Wf(cfg, c)
    ensures forall s :: 0 <= s < cfg.shards ==>
              && c.nodes[n].seqMap[s] <= c.nodes[n].db.shown[s] <= c.nodes[n].seqMap[s] + 1
              && c.nodes[n].db.shown[s] <= |c.logs[s]|
              && c.first[s] <= c.nodes[n].seqMap[s] + 1
    ensures forall key :: var s := cfg.route(key);
              Outstanding(cfg, c, n, key)
              || Get(c.nodes[n].db.tables, key)
                 == RowAfter(cfg.schema, c.logs[s][..c.nodes[n].db.shown[s]], key, Get(init, key))
  {
    StartSound(cfg, init);
    RunKeepsSound(cfg, init, Start(cfg, init), steps, c);
    var node := c.nodes[n];
    assert ImageInv(cfg, init, c, node.db) && NodeTight(cfg, c, n);
    forall s | 0 <= s < cfg.shards
      ensures node.seqMap[s] <= node.db.shown[s] <= node.seqMap[s] + 1
              && node.db.shown[s] <= |c.logs[s]| && c.first[s] <= node.seqMap[s] + 1
    {
      assert Tight(PositionOf(c, n, s));
    }
    forall key
      ensures var s := cfg.route(key);
              Outstanding(cfg, c, n, key)
              || Get(node.db.tables, key)
                 == RowAfter(cfg.schema, c.logs[s][..node.db.shown[s]], key, Get(init, key))
    {
      OutstandingOrShown(cfg, init, c, n, key);
    }
  }

  lemma OutstandingOrShown(cfg: Config, init: Tables, c: State, n: nat, key: RowKey)
    requires Wf(cfg, c) && n < cfg.nodes && Own(c, n) && ImageInv(cfg, init, c, c.nodes[n].db)
    requires Tight(PositionOf(c, n, cfg.route(key)))
    ensures Outstanding(cfg, c, n, key)
         || Shows(cfg, init, c.nodes[n].db, cfg.route(key), c.logs[cfg.route(key)], key)
  {
    var s, db := cfg.route(key), c.nodes[n].db;
    assert RowInv(cfg, init, c, db, key);
    if Ahead(cfg, db, s, c.logs[s], key) {
      var i :| db.shown[s] <= i < |c.logs[s]| && AheadAt(cfg, db, s, c.logs[s], i, key);
      assert c.logs[s][i].from == n;
    } else if Pending(cfg, c, db.carriers, key) {
      assert QueuedBy(cfg, c, Writer(n, c.nodes[n].epoch), key);
    }
  }
}
