/**
 Taking snapshots, restoring them, and deciding whether to.

 Restoring replaces the database but never moves the saved sequences, so the restored node replays
 each shard from its own saved position, or from the oldest message still retained.
 */
module Snapshot {
  import opened Wrappers
  import opened Rows
  import opened Replay
  import opened Cluster
  import opened Coverage
  import opened Convergence

  // ---------- snapshot, then replay ----------

  /**
   Replaying from position `from` on top of a row that reflects position `at`, or that a later
   message overwrites anyway, gives the row of the whole log as long as `from <= at`.
   */
  lemma CatchUpRow(schema: Schema, log: seq<Msg>, at: nat, from: nat, key: RowKey, init: Option<Row>, row: Option<Row>)
    requires from <= at <= |log|
    requires row == RowAfter(schema, log[..at], key, init) || Touches(schema, log[at..], key)
    ensures RowAfter(schema, log[from..], key, row) == RowAfter(schema, log, key, init)
  {
    assert log == log[..from] + log[from..] && log == log[..at] + log[at..];
    var before := RowAfter(schema, log[..from], key, init);
    RowAfterAppend(schema, log[..from], log[from..], key, init);
    RowAfterTouched(schema, log[from..], key, row, before);
    if Touches(schema, log[at..], key) {
    } else {
      RowAfterAppend(schema, log[..at], log[at..], key, init);
      RowAfterTouched(schema, log[at..], key, RowAfter(schema, log[..at], key, init), row);
    }
  }

  /** The part of every shard from a position on. */
  function Suffixes(logs: seq<seq<Msg>>, from: seq<nat>): (r: seq<seq<Msg>>)
    requires |from| == |logs| && forall s :: 0 <= s < |logs| ==> from[s] <= |logs[s]|
    ensures |r| == |logs| && forall s :: 0 <= s < |logs| ==> r[s] == logs[s][from[s]..]
  {
    seq(|logs|, s requires 0 <= s < |logs| => logs[s][from[s]..])
  }

  /** An image that lacks nothing but later messages catches up over any interleaving of them. */
  lemma ImageCatchUp(cfg: Config, init: Tables, c: State, image: Image, from: seq<nat>, merged: seq<Msg>)
    requires Wf(cfg, c) && ImageInv(cfg, init, c, image) && Published(c, image.carriers)
    requires |from| == cfg.shards && forall s :: 0 <= s < cfg.shards ==> from[s] <= image.shown[s]
    requires forall s :: 0 <= s < cfg.shards ==> from[s] <= |c.logs[s]|
    requires Interleaves(cfg.schema, cfg.route, Suffixes(c.logs, from), merged)
    ensures IsReplayOf(cfg, init, c.logs, Run(cfg.schema, image.tables, merged))
  {
    forall key
      ensures Get(Run(cfg.schema, image.tables, merged), key)
           == RowAfter(cfg.schema, c.logs[cfg.route(key)], key, Get(init, key))
    {
      var s := cfg.route(key);
      InterleavingRow(cfg.schema, cfg.route, Suffixes(c.logs, from), merged, image.tables, key);
      ShownOrTouched(cfg, init, c, image, key);
      CatchUpRow(cfg.schema, c.logs[s], image.shown[s], from[s], key, Get(init, key), Get(image.tables, key));
    }
  }

  lemma ShownOrTouched(cfg: Config, init: Tables, c: State, image: Image, key: RowKey)
    requires WfConfig(cfg) && ImageInv(cfg, init, c, image) && Published(c, image.carriers)
    ensures var s := cfg.route(key);
            Shows(cfg, init, image, s, c.logs[s], key)
            || Touches(cfg.schema, c.logs[s][image.shown[s]..], key)
  {
    var s := cfg.route(key);
    assert RowInv(cfg, init, c, image, key);
    PublishedNotPending(cfg, c, image.carriers, key);
    if Ahead(cfg, image, s, c.logs[s], key) {
      var i :| image.shown[s] <= i < |c.logs[s]| && AheadAt(cfg, image, s, c.logs[s], i, key);
      assert c.logs[s][image.shown[s]..][i - image.shown[s]] == c.logs[s][i];
    }
  }

  /**
   Bootstrapping from any snapshot: a snapshot taken on any node anywhere in a run, with snapshots
   enabled, early discards and restored nodes around, followed at any later time by a replay of
   every shard from before the first message the snapshot does not show, gives the replay of the
   whole logs, once the changes captured on the nodes it came from have been published.
   */
  lemma SnapshotBootstraps(cfg: Config, init: Tables, steps: seq<Step>, c: State, k: nat,
                           from: seq<nat>, merged: seq<Msg>)
    requires Replicable(cfg) && WfConfig(cfg) && IsRun(cfg, Start(cfg, init), steps, c)
    requires Wf(cfg, c) && k < |c.snapshots| && Published(c, c.snapshots[k].carriers)
    requires |from| == cfg.shards
    requires forall s :: 0 <= s < cfg.shards ==> from[s] <= c.snapshots[k].shown[s] && from[s] <= |c.logs[s]|
    requires Interleaves(cfg.schema, cfg.route, Suffixes(c.logs, from), merged)
    ensures IsReplayOf(cfg, init, c.logs, Run(cfg.schema, c.snapshots[k].tables, merged))
  {
    StartInv(cfg, init);
    RunKeepsInv(cfg, init, Start(cfg, init), steps, c);
    assert ImageInv(cfg, init, c, c.snapshots[k]);
    ImageCatchUp(cfg, init, c, c.snapshots[k], from, merged);
  }

  /** The bootstrapped database is that of every settled node whose own run was calm. */
  lemma BootstrapMatchesNode(cfg: Config, init: Tables, steps: seq<Step>, c: State, k: nat,
                             from: seq<nat>, merged: seq<Msg>, m: nat)
    requires Replicable(cfg) && WfConfig(cfg) && IsRun(cfg, Start(cfg, init), steps, c)
    requires Wf(cfg, c) && k < |c.snapshots| && Published(c, c.snapshots[k].carriers)
    requires |from| == cfg.shards
    requires forall s :: 0 <= s < cfg.shards ==> from[s] <= c.snapshots[k].shown[s] && from[s] <= |c.logs[s]|
    requires Interleaves(cfg.schema, cfg.route, Suffixes(c.logs, from), merged)
    requires m < cfg.nodes && CalmRun(cfg, Start(cfg, init), steps, c, m) && Settled(cfg, c, m)
    ensures Run(cfg.schema, c.snapshots[k].tables, merged) == c.nodes[m].db.tables
  {
    SnapshotBootstraps(cfg, init, steps, c, k, from, merged);
    CalmSettlesToReplay(cfg, init, steps, c, m);
    SameRowsSameTables(Run(cfg.schema, c.snapshots[k].tables, merged), c.nodes[m].db.tables);
  }

  // ---------- restored nodes ----------

  /** Where a node resumes a shard: after its saved sequence, or at the oldest retained message. */
  function ResumesAfter(c: State, n: nat, s: nat): nat
    requires n < |c.nodes| && s < |c.first| && c.first[s] >= 1 && s < |c.nodes[n].seqMap|
  {
    Max(c.nodes[n].seqMap[s], c.first[s] - 1)
  }

  /** A restored node is on track on a shard exactly when it resumes at or before the snapshot's position. */
  lemma RestoredOnTrack(cfg: Config, c: State, n: nat, k: nat, s: nat)
    requires Wf(cfg, c) && Enabled(cfg, c, Restore(n, k)) && s < cfg.shards
    ensures var c' := Do(cfg, c, Restore(n, k));
            Wf(cfg, c') && (OnTrack(PositionOf(c', n, s)) <==> ResumesAfter(c, n, s) <= c.snapshots[k].shown[s])
  {
    StepKeepsWf(cfg, c, Restore(n, k));
  }

  /**
   A restored node that resumes every shard at or before the snapshot's position catches up: in
   every later run that is calm for it, once it is settled and the snapshot's carriers have
   published, it holds the replay of the shard logs.
   */
  lemma RestoredCatchesUp(cfg: Config, init: Tables, steps: seq<Step>, c: State, n: nat, k: nat,
                          later: seq<Step>, c': State)
    requires Replicable(cfg) && WfConfig(cfg) && IsRun(cfg, Start(cfg, init), steps, c)
    requires Wf(cfg, c) && Enabled(cfg, c, Restore(n, k))
    requires forall s :: 0 <= s < cfg.shards ==> ResumesAfter(c, n, s) <= c.snapshots[k].shown[s]
    requires CalmRun(cfg, Do(cfg, c, Restore(n, k)), later, c', n)
    ensures Wf(cfg, c')
    ensures Settled(cfg, c', n) && Published(c', c'.nodes[n].db.carriers) ==>
              IsReplayOf(cfg, init, c'.logs, c'.nodes[n].db.tables)
  {
    RestoredRun(cfg, init, steps, c, n, k, later, c');
    forall s | 0 <= s < cfg.shards ensures OnTrack(PositionOf(c', n, s)) {
      assert ResumesAfter(c, n, s) <= c.snapshots[k].shown[s];
    }
    if Settled(cfg, c', n) && Published(c', c'.nodes[n].db.carriers) {
      OnTrackSettles(cfg, init, c', n);
    }
  }

  /** What a calm run after a restore keeps, shard by shard. */
  lemma RestoredRun(cfg: Config, init: Tables, steps: seq<Step>, c: State, n: nat, k: nat,
                    later: seq<Step>, c': State)
    requires Replicable(cfg) && WfConfig(cfg) && IsRun(cfg, Start(cfg, init), steps, c)
    requires Wf(cfg, c) && Enabled(cfg, c, Restore(n, k))
    requires CalmRun(cfg, Do(cfg, c, Restore(n, k)), later, c', n)
    ensures Inv(cfg, init, c')
    ensures forall s :: 0 <= s < cfg.shards && ResumesAfter(c, n, s) <= c.snapshots[k].shown[s] ==>
              OnTrack(PositionOf(c', n, s))
  {
    StartInv(cfg, init);
    RunKeepsInv(cfg, init, Start(cfg, init), steps, c);
    StepKeepsInv(cfg, init, c, Restore(n, k));
    var restored := Do(cfg, c, Restore(n, k));
    CalmRunKeeps(cfg, init, restored, later, c', n);
    forall s | 0 <= s < cfg.shards && ResumesAfter(c, n, s) <= c.snapshots[k].shown[s]
      ensures OnTrack(PositionOf(c', n, s))
    {
      RestoredOnTrack(cfg, c, n, k, s);
    }
  }

  // ---------- the decision ----------

  datatype Decision = FromSnapshot | Keep | StreamError

  /** Shards in the order map iteration yields them. */
  ghost predicate Visits(order: seq<nat>, shards: nat) {
    (forall i :: 0 <= i < |order| ==> order[i] < shards)
    && forall s :: 0 <= s < shards ==> s in order
  }

  ghost predicate Gap(saved: seq<nat>, first: seq<Option<nat>>, s: nat)
    requires s < |saved| == |first|
  {
    first[s].Some? && saved[s] < first[s].value
  }

  /** The first shard in iteration order that does not answer or has a gap. */
  ghost predicate StopsAt(saved: seq<nat>, first: seq<Option<nat>>, order: seq<nat>, i: int)
    requires |saved| == |first| && Visits(order, |saved|)
  {
    0 <= i < |order|
    && (first[order[i]] == None || Gap(saved, first, order[i]))
    && forall j :: 0 <= j < i ==> first[order[j]].Some? && !Gap(saved, first, order[j])
  }

  /** The start-up decision; `first[s]` is the first retained sequence, if the stream answers. */
  method RestoreDecision(saved: seq<nat>, first: seq<Option<nat>>, order: seq<nat>) returns (d: Decision)
    requires |saved| == |first| && Visits(order, |saved|)
    ensures d == Keep <==> forall s :: 0 <= s < |saved| ==> first[s].Some? && !Gap(saved, first, s)
    ensures d != Keep ==> exists i ::
              StopsAt(saved, first, order, i) && d == (if first[order[i]] == None then StreamError else FromSnapshot)
  {
    for i := 0 to |order|
      invariant forall j :: 0 <= j < i ==> first[order[j]].Some? && !Gap(saved, first, order[j])
    {
      var s := order[i];
      if first[s] == None {
        assert StopsAt(saved, first, order, i);
        return StreamError;
      }
      if saved[s] < first[s].value {
        assert StopsAt(saved, first, order, i);
        return FromSnapshot;
      }
    }
    forall s | 0 <= s < |saved| ensures first[s].Some? && !Gap(saved, first, s) {
      assert s in order;
      var j :| 0 <= j < |order| && order[j] == s;
    }
    return Keep;
  }

  /** The check during a schema pause skips streams that do not answer. */
  method CheckStreamGap(saved: seq<nat>, first: seq<Option<nat>>, order: seq<nat>) returns (gap: bool)
    requires |saved| == |first| && Visits(order, |saved|)
    ensures gap <==> exists s :: 0 <= s < |saved| && Gap(saved, first, s)
  {
    for i := 0 to |order|
      invariant forall j :: 0 <= j < i ==> !Gap(saved, first, order[j])
    {
      var s := order[i];
      if first[s].Some? && saved[s] < first[s].value {
        assert Gap(saved, first, s);
        return true;
      }
    }
    forall s | 0 <= s < |saved| ensures !Gap(saved, first, s) {
      assert s in order;
      var j :| 0 <= j < |order| && order[j] == s;
    }
    return false;
  }

  /** Message `q` of a stream of `length` messages has been discarded. */
  ghost predicate Lost(first: nat, length: nat, q: nat) {
    1 <= q <= length && q < first
  }

  /** Some message after the saved one is no longer retained. */
  ghost predicate Missing(saved: nat, first: nat, length: nat) {
    exists q :: saved < q && Lost(first, length, q)
  }

  /**
   The gap check never misses a loss, and it raises a false alarm in exactly one situation: the
   stream has dropped everything up to and including the saved message, and nothing more.
   */
  lemma GapCheckPrecision(saved: nat, first: nat, length: nat)
    requires first <= length + 1
    ensures saved < first <==> Missing(saved, first, length) || first == saved + 1
    ensures Missing(saved, first, length) ==> first != saved + 1
  {
    if saved + 1 < first {
      assert Lost(first, length, saved + 1);
    }
  }

  /** What the streams report when they all answer. */
  function Reported(c: State): (r: seq<Option<nat>>)
    requires |c.logs| == |c.first|
    ensures |r| == |c.logs| && forall s :: 0 <= s < |r| ==> r[s] == Some(FirstSeq(c, s))
  {
    seq(|c.logs|, s requires 0 <= s < |c.logs| => Some(FirstSeq(c, s)))
  }

  /** The decision to restore is the protocol's condition for it. */
  lemma DecisionIsGap(cfg: Config, c: State, n: nat)
    requires Wf(cfg, c) && n < cfg.nodes
    ensures Gapped(c, n) <==> exists s :: 0 <= s < cfg.shards && Gap(c.nodes[n].seqMap, Reported(c), s)
  {
    if Gapped(c, n) {
      var s :| 0 <= s < |c.logs| && c.nodes[n].seqMap[s] < FirstSeq(c, s);
      assert Gap(c.nodes[n].seqMap, Reported(c), s);
    }
  }

  ghost predicate SomeGap(cfg: Config, c: State, n: nat)
    requires Wf(cfg, c) && n < cfg.nodes
  {
    exists s :: 0 <= s < cfg.shards && Gap(c.nodes[n].seqMap, Reported(c), s)
  }

  /**
   How a stopped node starts: with snapshots enabled and one in the storage, over a snapshot exactly
   if some stream reports a gap, and over its own database exactly if none does; otherwise always
   over its own database.
   */
  lemma StartFollowsDecision(cfg: Config, c: State, n: nat, k: nat)
    requires Wf(cfg, c) && n < cfg.nodes && !c.nodes[n].up
    ensures Enabled(cfg, c, Restart(n)) <==> !cfg.snapshots || c.snapshots == [] || !SomeGap(cfg, c, n)
    ensures Enabled(cfg, c, Restore(n, k)) <==> cfg.snapshots && k < |c.snapshots| && SomeGap(cfg, c, n)
  {
    DecisionIsGap(cfg, c, n);
  }

  /** A stream without messages never is a gap; any other reports the first message it can deliver. */
  lemma ReportsFirst(cfg: Config, c: State, n: nat, s: nat)
    requires Wf(cfg, c) && n < cfg.nodes && s < cfg.shards
    ensures c.logs[s] == [] ==> !Gap(c.nodes[n].seqMap, Reported(c), s)
    ensures c.logs[s] != [] && c.nodes[n].up && c.nodes[n].listeners[s] == FreshListener(0) ==>
              forall q: nat :: Enabled(cfg, c, Deliver(n, s, q)) <==> Reported(c)[s] == Some(q)
  {
  }

  /**
   The decision to keep the database is sound: if no stream reports a gap and the node has saved
   nothing its database does not show, it is on track, and in every later run that is calm for it
   it settles to the replay of the shard logs.
   */
  lemma KeptCatchesUp(cfg: Config, init: Tables, steps: seq<Step>, c: State, n: nat, later: seq<Step>, c': State)
    requires Replicable(cfg) && WfConfig(cfg) && IsRun(cfg, Start(cfg, init), steps, c)
    requires Wf(cfg, c) && n < cfg.nodes && !c.nodes[n].up
    requires forall s :: 0 <= s < cfg.shards ==> c.nodes[n].seqMap[s] <= c.nodes[n].db.shown[s]
    requires forall s :: 0 <= s < cfg.shards ==> !Gap(c.nodes[n].seqMap, Reported(c), s)
    requires CalmRun(cfg, c, later, c', n)
    ensures Wf(cfg, c')
    ensures Settled(cfg, c', n) && Published(c', c'.nodes[n].db.carriers) ==>
              IsReplayOf(cfg, init, c'.logs, c'.nodes[n].db.tables)
  {
    StartInv(cfg, init);
    RunKeepsInv(cfg, init, Start(cfg, init), steps, c);
    forall s | 0 <= s < cfg.shards ensures OnTrack(PositionOf(c, n, s)) {
      assert !Gap(c.nodes[n].seqMap, Reported(c), s);
    }
    CalmRunKeeps(cfg, init, c, later, c', n);
    if Settled(cfg, c', n) && Published(c', c'.nodes[n].db.carriers) {
      OnTrackSettles(cfg, init, c', n);
    }
  }
}
