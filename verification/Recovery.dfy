/**
 When restoring a snapshot is right.

 Restoring replaces the whole database as soon as one stream has a gap, and the saved sequences
 stay where they are. A shard that the node resumes beyond the snapshot's position then misses the
 messages in between. The position at which the node resumes decides exactly.
 */
module Recovery {
  import opened Wrappers
  import opened Runs
  import opened Rows
  import opened Replay
  import opened Cluster
  import opened Coverage
  import opened Convergence
  import opened Progress
  import Faults
  import Snapshot
  import Wire

  /** Node `n` is restored from snapshot `k` in a reachable state `c` and then runs calmly to `c'`. */
  ghost predicate RestoredTo(cfg: Config, init: Tables, c: State, n: nat, k: nat, c': State) {
    Faults.Reachable(cfg, init, c) && Enabled(cfg, c, Restore(n, k)) && Wf(cfg, c')
    && exists later :: CalmRun(cfg, Do(cfg, c, Restore(n, k)), later, c', n)
  }

  /**
   Node `n`, restored from a snapshot that shows shard `s` at `at` and resuming it after `from`,
   ends settled with a wrong row under `key`, although every carrier has published.
   */
  ghost predicate EndsWrong(cfg: Config, s: nat, at: nat, from: nat,
                            init: Tables, c: State, n: nat, k: nat, c': State, key: RowKey)
  {
    s < cfg.shards && RestoredTo(cfg, init, c, n, k, c') && cfg.route(key) == s
    && c.snapshots[k].shown[s] == at && Snapshot.ResumesAfter(c, n, s) == from
    && Settled(cfg, c', n) && Published(c', c'.nodes[n].db.carriers)
    && Get(c'.nodes[n].db.tables, key) != RowAfter(cfg.schema, c'.logs[s], key, Get(init, key))
  }

  /** No node restored and resuming at these positions ever ends with a wrong row of the shard. */
  ghost predicate RestoreSound(cfg: Config, s: nat, at: nat, from: nat) {
    forall init, c, n: nat, k: nat, c', key :: !EndsWrong(cfg, s, at, from, init, c, n, k, c', key)
  }

  lemma EarlyResumeIsRight(cfg: Config, s: nat, at: nat, from: nat,
                           init: Tables, c: State, n: nat, k: nat, c': State, key: RowKey)
    requires Replicable(cfg) && WfConfig(cfg) && s < cfg.shards && from <= at
    ensures !EndsWrong(cfg, s, at, from, init, c, n, k, c', key)
  {
    if EndsWrong(cfg, s, at, from, init, c, n, k, c', key) {
      var steps :| Faults.Reached(cfg, init, steps, c);
      var later :| CalmRun(cfg, Do(cfg, c, Restore(n, k)), later, c', n);
      Snapshot.RestoredRun(cfg, init, steps, c, n, k, later, c');
      SettledRow(cfg, init, c', n, key);
      assert false;
    }
  }

  // ---------- runs that are calm for every node ----------

  ghost function CalmForAll(cfg: Config): (State, Step) -> Option<State> {
    (c, step) =>
      if Wf(cfg, c) && Enabled(cfg, c, step) && (forall n :: 0 <= n < cfg.nodes ==> Calm(cfg, c, step, n))
      then Some(Do(cfg, c, step)) else None
  }

  /** A run that is calm for every node leads to `c`. */
  ghost predicate CalmlyReached(cfg: Config, init: Tables, c: State) {
    Wf(cfg, c) && exists steps :: Path(CalmForAll(cfg), Start(cfg, init), steps, c)
  }

  lemma CalmlyReachable(cfg: Config, init: Tables, c: State)
    requires CalmlyReached(cfg, init, c)
    ensures Faults.Reachable(cfg, init, c)
  {
    var steps :| Path(CalmForAll(cfg), Start(cfg, init), steps, c);
    PathWiden(CalmForAll(cfg), Next(cfg), Start(cfg, init), steps, c);
    assert Faults.Reached(cfg, init, steps, c);
  }

  lemma CalmlySteady(cfg: Config, init: Tables, c: State)
    requires Replicable(cfg) && CalmlyReached(cfg, init, c)
    ensures Steady(cfg, init, c)
  {
    var steps :| Path(CalmForAll(cfg), Start(cfg, init), steps, c);
    PathWiden(CalmForAll(cfg), Next(cfg), Start(cfg, init), steps, c);
    forall n | 0 <= n < cfg.nodes ensures CalmRun(cfg, Start(cfg, init), steps, c, n) {
      PathWiden(CalmForAll(cfg), CalmNext(cfg, n), Start(cfg, init), steps, c);
    }
    CalmIsSteady(cfg, init, steps, c);
  }

  lemma CalmOn(cfg: Config, init: Tables, c: State, step: Step) returns (c': State)
    requires CalmlyReached(cfg, init, c) && Enabled(cfg, c, step)
    requires forall n :: 0 <= n < cfg.nodes ==> Calm(cfg, c, step, n)
    ensures CalmlyReached(cfg, init, c') && c' == Do(cfg, c, step)
  {
    c' := Do(cfg, c, step);
    StepKeepsWf(cfg, c, step);
    var steps :| Path(CalmForAll(cfg), Start(cfg, init), steps, c);
    assert Path(CalmForAll(cfg), c, [step], c');
    PathAppend(CalmForAll(cfg), Start(cfg, init), steps, c, [step], c');
    assert Path(CalmForAll(cfg), Start(cfg, init), steps + [step], c');
  }

  lemma CalmLeads(cfg: Config, init: Tables, c: State, c': State)
    requires CalmlyReached(cfg, init, c) && Leads(cfg, c, c')
    ensures CalmlyReached(cfg, init, c')
  {
    var steps :| Path(CalmForAll(cfg), Start(cfg, init), steps, c);
    var quiet :| QuietRun(cfg, c, quiet, c');
    PathWiden(QuietNext(cfg), CalmForAll(cfg), c, quiet, c');
    PathAppend(CalmForAll(cfg), Start(cfg, init), steps, c, quiet, c');
    assert Path(CalmForAll(cfg), Start(cfg, init), steps + quiet, c');
  }

  // ---------- a run for every later resume ----------

  /** One row written again and again by node 0, with value `i` the i-th time. */
  function RowNo(cfg: Config, t: string, extra: string, i: int): Row {
    Faults.KeyRow(cfg, t, 0) + map[extra := Int(i)]
  }

  function TheKey(cfg: Config, t: string): RowKey {
    RowKey(t, Faults.KeyRow(cfg, t, 0))
  }

  function Series(cfg: Config, t: string, extra: string, n: nat): (log: seq<Msg>)
    ensures |log| == n
    ensures forall i :: 0 <= i < n ==> log[i] == Msg(0, Faults.Inserted(t, RowNo(cfg, t, extra, i)))
  {
    seq(n, i => Msg(0, Faults.Inserted(t, RowNo(cfg, t, extra, i))))
  }

  ghost predicate Usable(cfg: Config, t: string, extra: string) {
    && Replicable(cfg) && WfConfig(cfg) && cfg.nodes >= 2
    && t in cfg.schema && KeyColumns(cfg.schema[t]) != {} && extra !in KeyColumns(cfg.schema[t])
  }

  lemma RowNoFacts(cfg: Config, t: string, extra: string, i: int)
    requires Usable(cfg, t, extra)
    ensures KeyOf(cfg.schema, t, RowNo(cfg, t, extra, i)) == TheKey(cfg, t)
    ensures Wire.OverWire(Faults.Inserted(t, RowNo(cfg, t, extra, i))) == Faults.Inserted(t, RowNo(cfg, t, extra, i))
    ensures WireSafe(cfg.schema, Faults.Inserted(t, RowNo(cfg, t, extra, i)))
    ensures RowNo(cfg, t, extra, i)[extra] == Int(i)
  {
    Faults.KeyRowKey(cfg, t, 0, map[extra := Int(i)]);
    Faults.PlainRowIsSafe(cfg, "insert", t, RowNo(cfg, t, extra, i), 0);
  }

  /** The series leaves its last row. */
  lemma SeriesRow(cfg: Config, t: string, extra: string, n: nat)
    requires Usable(cfg, t, extra)
    ensures RowAfter(cfg.schema, Series(cfg, t, extra, n), TheKey(cfg, t), None)
         == if n == 0 then None else Some(RowNo(cfg, t, extra, n - 1))
  {
  }

  /** The series has been published and taken by all nodes, which are up and on track. */
  ghost predicate Staged(cfg: Config, t: string, extra: string, c: State, n: nat) {
    && CalmlyReached(cfg, map[], c) && Drained(c) && SettledUpTo(cfg, c, cfg.nodes)
    && Holds(cfg, t, extra, c, n)
  }

  /** The streams hold the series, and nothing is discarded. */
  ghost predicate Holds(cfg: Config, t: string, extra: string, c: State, n: nat) {
    |c.logs| == |c.first| == cfg.shards
    && forall s :: 0 <= s < cfg.shards ==>
      c.first[s] == 1 && c.logs[s] == if s == cfg.route(TheKey(cfg, t)) then Series(cfg, t, extra, n) else []
  }

  /** All nodes take everything there is. */
  lemma CatchUp(cfg: Config, init: Tables, c: State) returns (c': State)
    requires Replicable(cfg) && CalmlyReached(cfg, init, c) && Drained(c)
    ensures CalmlyReached(cfg, init, c') && Drained(c') && SettledUpTo(cfg, c', cfg.nodes)
    ensures c'.logs == c.logs && c'.first == c.first && c'.snapshots == c.snapshots
  {
    LeadsSelf(cfg, c);
    CalmlySteady(cfg, init, c);
    forall n | 0 <= n < cfg.nodes ensures Loaded(cfg, c, n) {
      SteadyIsLoaded(cfg, init, c, n);
    }
    c' := CatchUpAll(cfg, c, c, 0);
    CalmLeads(cfg, init, c, c');
  }

  lemma StartStaged(cfg: Config, t: string, extra: string) returns (c: State)
    requires Usable(cfg, t, extra)
    ensures Staged(cfg, t, extra, c, 0) && c.snapshots == []
  {
    var c0 := Start(cfg, map[]);
    StartWf(cfg, map[]);
    LeadsSelf(cfg, c0);
    assert Path(CalmForAll(cfg), c0, [], c0);
    var c1 := StartAll(cfg, c0, c0, 0);
    CalmLeads(cfg, map[], c0, c1);
    c := CatchUp(cfg, map[], c1);
  }

  /** Node `n` inserts a row. */
  lemma WriteOne(cfg: Config, init: Tables, c: State, n: nat, t: string, row: Row) returns (c': State)
    requires CalmlyReached(cfg, init, c) && n < cfg.nodes && c.nodes[n].queue == []
    requires t in cfg.schema && WireSafe(cfg.schema, Faults.Inserted(t, row))
    ensures CalmlyReached(cfg, init, c') && OnlyNode(c, c', n) && c'.logs == c.logs && c'.nodes[n].up == c.nodes[n].up
    ensures c'.nodes[n].queue == [Faults.Inserted(t, row)] && c'.nodes[n].listeners == c.nodes[n].listeners
  {
    c' := CalmOn(cfg, init, c, LocalWrite(n, 0, Insert(t, row)));
  }

  /** Node `n` publishes its only change, having taken what is on the shard. */
  lemma PublishNext(cfg: Config, init: Tables, c: State, n: nat, s: nat) returns (c': State)
    requires CalmlyReached(cfg, init, c) && n < cfg.nodes && c.nodes[n].up && |c.nodes[n].queue| == 1
    requires s == cfg.route(EventKey(cfg.schema, c.nodes[n].queue[0])) && Current(c, n, s)
    ensures CalmlyReached(cfg, init, c') && OnlyNode(c, c', n) && c'.nodes[n].up && c'.nodes[n].queue == []
    ensures c'.logs == c.logs[s := c.logs[s] + [Msg(n, Wire.OverWire(c.nodes[n].queue[0]))]]
    ensures c'.nodes[n].db == c.nodes[n].db
    ensures cfg.snapshots ==> c'.nodes[n].seqMap[s] == Max(c.nodes[n].seqMap[s], |c.logs[s]| + 1)
  {
    c' := CalmOn(cfg, init, c, Publish(n, 0, true, cfg.snapshots));
  }

  /** Node 0 inserts a row and publishes it, and all nodes take it. */
  lemma WriteOut(cfg: Config, init: Tables, c: State, t: string, row: Row) returns (c': State)
    requires Replicable(cfg) && CalmlyReached(cfg, init, c) && cfg.nodes >= 1 && Drained(c)
    requires SettledUpTo(cfg, c, cfg.nodes) && t in cfg.schema && WireSafe(cfg.schema, Faults.Inserted(t, row))
    ensures CalmlyReached(cfg, init, c') && Drained(c') && SettledUpTo(cfg, c', cfg.nodes)
    ensures var event := Faults.Inserted(t, row); var s := cfg.route(EventKey(cfg.schema, event));
            c'.first == c.first && c'.snapshots == c.snapshots
            && c'.logs == c.logs[s := c.logs[s] + [Msg(0, Wire.OverWire(event))]]
  {
    var s := cfg.route(EventKey(cfg.schema, Faults.Inserted(t, row)));
    assert Settled(cfg, c, 0) && ShardSettled(c, 0, s);
    CalmlySteady(cfg, init, c);
    SettledIsCurrent(cfg, init, c, 0, s);
    var c1 := WriteOne(cfg, init, c, 0, t, row);
    var c2 := PublishNext(cfg, init, c1, 0, s);
    assert forall n :: 0 < n < cfg.nodes ==> c2.nodes[n] == c.nodes[n];
    c' := CatchUp(cfg, init, c2);
  }

  lemma SeriesNext(cfg: Config, t: string, extra: string, n: nat)
    ensures Series(cfg, t, extra, n + 1)
         == Series(cfg, t, extra, n) + [Msg(0, Faults.Inserted(t, RowNo(cfg, t, extra, n)))]
  {
  }

  /** Node 0 writes the next row, and all nodes take it. */
  lemma WriteNext(cfg: Config, t: string, extra: string, c: State, n: nat) returns (c': State)
    requires Usable(cfg, t, extra) && Staged(cfg, t, extra, c, n)
    ensures Staged(cfg, t, extra, c', n + 1) && c'.snapshots == c.snapshots
  {
    RowNoFacts(cfg, t, extra, n);
    c' := WriteOut(cfg, map[], c, t, RowNo(cfg, t, extra, n));
    SeriesNext(cfg, t, extra, n);
  }

  lemma WriteMany(cfg: Config, t: string, extra: string, c: State, n: nat, more: nat) returns (c': State)
    requires Usable(cfg, t, extra) && Staged(cfg, t, extra, c, n)
    ensures Staged(cfg, t, extra, c', n + more) && c'.snapshots == c.snapshots
    decreases more
  {
    if more == 0 {
      c' := c;
    } else {
      var c1 := WriteNext(cfg, t, extra, c, n);
      c' := WriteMany(cfg, t, extra, c1, n + 1, more - 1);
    }
  }

  /** Node `m` has taken and saved everything. */
  ghost predicate AllSaved(cfg: Config, c: State, m: nat) {
    Wf(cfg, c) && m < cfg.nodes
    && forall s :: 0 <= s < cfg.shards ==>
      Current(c, m, s) && c.nodes[m].seqMap[s] == c.nodes[m].db.shown[s] == |c.logs[s]|
  }

  lemma StagedSaved(cfg: Config, t: string, extra: string, c: State, n: nat, m: nat)
    requires Replicable(cfg) && Staged(cfg, t, extra, c, n) && m < cfg.nodes
    ensures AllSaved(cfg, c, m) && Own(c, m)
  {
    CalmlySteady(cfg, map[], c);
    assert Settled(cfg, c, m) && NodeOnTrack(cfg, c, m);
    assert ImageInv(cfg, map[], c, c.nodes[m].db);
    forall s | 0 <= s < cfg.shards
      ensures Current(c, m, s) && c.nodes[m].seqMap[s] == c.nodes[m].db.shown[s] == |c.logs[s]|
    {
      assert ShardSettled(c, m, s) && OnTrack(PositionOf(c, m, s));
      SettledIsCurrent(cfg, map[], c, m, s);
    }
  }

  /** What every node holds under the key. */
  lemma StagedRow(cfg: Config, t: string, extra: string, c: State, n: nat, m: nat)
    requires Usable(cfg, t, extra) && Staged(cfg, t, extra, c, n) && m < cfg.nodes
    ensures Get(c.nodes[m].db.tables, TheKey(cfg, t)) == if n == 0 then None else Some(RowNo(cfg, t, extra, n - 1))
  {
    CalmlySteady(cfg, map[], c);
    assert Settled(cfg, c, m);
    SteadySettles(cfg, map[], c, m);
    SeriesRow(cfg, t, extra, n);
  }

  /** Node 0 stores its database. */
  lemma StoreSnapshot(cfg: Config, t: string, extra: string, c: State, n: nat) returns (c': State)
    requires Usable(cfg, t, extra) && Staged(cfg, t, extra, c, n) && c.snapshots == []
    ensures Staged(cfg, t, extra, c', n) && c'.snapshots == [c.nodes[0].db]
  {
    c' := CalmOn(cfg, map[], c, TakeSnapshot(0));
    forall m | 0 <= m < cfg.nodes ensures Settled(cfg, c', m) {
      assert Settled(cfg, c, m);
    }
  }

  /** A snapshot of the first `at` rows is stored. */
  ghost predicate Stored(cfg: Config, t: string, extra: string, c: State, at: nat) {
    && cfg.route(TheKey(cfg, t)) < cfg.shards && |c.snapshots| == 1 && WfImage(cfg, c.snapshots[0])
    && c.snapshots[0].carriers == {Writer(0, 0)} && c.snapshots[0].shown[cfg.route(TheKey(cfg, t))] == at
    && Get(c.snapshots[0].tables, TheKey(cfg, t)) == (if at == 0 then None else Some(RowNo(cfg, t, extra, at - 1)))
  }

  lemma StoreFirst(cfg: Config, t: string, extra: string, at: nat) returns (c: State)
    requires Usable(cfg, t, extra)
    ensures Staged(cfg, t, extra, c, at) && Stored(cfg, t, extra, c, at)
  {
    var c0 := StartStaged(cfg, t, extra);
    var c1 := WriteMany(cfg, t, extra, c0, 0, at);
    StagedRow(cfg, t, extra, c1, at, 0);
    StagedSaved(cfg, t, extra, c1, at, 0);
    c := StoreSnapshot(cfg, t, extra, c1, at);
  }

  /** A snapshot of the first `at` rows is stored, and all nodes have taken `from` rows. */
  lemma WriteRest(cfg: Config, t: string, extra: string, at: nat, from: nat) returns (c: State)
    requires Usable(cfg, t, extra) && at < from
    ensures Staged(cfg, t, extra, c, from) && Stored(cfg, t, extra, c, at)
  {
    var c0 := StoreFirst(cfg, t, extra, at);
    c := WriteMany(cfg, t, extra, c0, at, from - at);
  }

  // ---------- a gap for one node ----------

  /** A row of the same table under another key. */
  function OtherRow(cfg: Config, t: string): Row {
    Faults.KeyRow(cfg, t, 1)
  }

  function OtherKey(cfg: Config, t: string): RowKey {
    RowKey(t, OtherRow(cfg, t))
  }

  lemma OtherFacts(cfg: Config, t: string, extra: string)
    requires Usable(cfg, t, extra)
    ensures OtherKey(cfg, t) != TheKey(cfg, t) && KeyOf(cfg.schema, t, OtherRow(cfg, t)) == OtherKey(cfg, t)
    ensures Wire.OverWire(Faults.Inserted(t, OtherRow(cfg, t))) == Faults.Inserted(t, OtherRow(cfg, t))
    ensures WireSafe(cfg.schema, Faults.Inserted(t, OtherRow(cfg, t)))
  {
    Faults.PlainKeyRowKey(cfg, t, 1);
    Faults.PlainRowIsSafe(cfg, "insert", t, OtherRow(cfg, t), 0);
    var column :| column in KeyColumns(cfg.schema[t]);
    assert OtherRow(cfg, t)[column] != Faults.KeyRow(cfg, t, 0)[column];
  }

  /** All nodes have saved the series, and nothing else is on the streams. */
  ghost predicate Even(cfg: Config, t: string, extra: string, c: State, n: nat) {
    && Faults.Reachable(cfg, map[], c) && Holds(cfg, t, extra, c, n)
    && forall m, s :: 0 <= m < cfg.nodes && 0 <= s < cfg.shards ==> c.nodes[m].seqMap[s] == |c.logs[s]|
  }

  /** Node `w` waits and has taken and saved everything. */
  ghost predicate Idle(cfg: Config, c: State, w: nat) {
    Faults.Waits(cfg, c, w) && forall s :: 0 <= s < cfg.shards ==> Current(c, w, s)
  }

  lemma StagedIsEven(cfg: Config, t: string, extra: string, c: State, n: nat)
    requires Replicable(cfg) && Staged(cfg, t, extra, c, n)
    ensures Even(cfg, t, extra, c, n)
  {
    CalmlyReachable(cfg, map[], c);
    forall m, s | 0 <= m < cfg.nodes && 0 <= s < cfg.shards ensures c.nodes[m].seqMap[s] == |c.logs[s]| {
      StagedSaved(cfg, t, extra, c, n, m);
      assert Current(c, m, s);
    }
  }

  lemma StagedIsIdle(cfg: Config, t: string, extra: string, c: State, n: nat, w: nat)
    requires Replicable(cfg) && Staged(cfg, t, extra, c, n) && w < cfg.nodes
    ensures Idle(cfg, c, w)
  {
    StagedSaved(cfg, t, extra, c, n, w);
    CalmlySteady(cfg, map[], c);
    SteadyIsLoaded(cfg, map[], c, w);
  }

  lemma GoDown(cfg: Config, init: Tables, c: State, n: nat) returns (c': State)
    requires Faults.Reachable(cfg, init, c) && n < cfg.nodes && c.nodes[n].up
    ensures Faults.Reachable(cfg, init, c')
    ensures c' == c.(nodes := c.nodes[n := c.nodes[n].(up := false)])
  {
    Faults.ReachOn(cfg, init, c, Crash(n));
    c' := Do(cfg, c, Crash(n));
  }

  /** A node that has saved all but the other row ignores the key. */
  lemma StillIgnores(cfg: Config, t: string, extra: string, c: State, c': State, w: nat)
    requires Usable(cfg, t, extra) && Wf(cfg, c) && Wf(cfg, c') && w < cfg.nodes && Idle(cfg, c, w)
    requires forall s :: 0 <= s < cfg.shards ==>
               Faults.SamePosition(c.nodes[w].listeners[s], c'.nodes[w].listeners[s])
    requires var s := cfg.route(OtherKey(cfg, t));
             c'.logs == c.logs[s := c.logs[s] + [Msg(w, Faults.Inserted(t, OtherRow(cfg, t)))]]
    ensures Ignores(cfg, c', w, TheKey(cfg, t))
  {
    OtherFacts(cfg, t, extra);
    forall s | 0 <= s < cfg.shards
      ensures Free(cfg.schema, c'.logs[s], c'.nodes[w].listeners[s].saved, c'.first[s], TheKey(cfg, t))
    {
      assert Current(c, w, s);
    }
  }

  /** Node `w` writes the other row and publishes it. */
  lemma Speak(cfg: Config, t: string, extra: string, c: State, w: nat) returns (c': State)
    requires Usable(cfg, t, extra) && Faults.Reachable(cfg, map[], c) && w < cfg.nodes && Idle(cfg, c, w)
    ensures Faults.Reachable(cfg, map[], c') && OnlyNode(c, c', w) && SameWrites(c.nodes[w], c'.nodes[w])
    ensures Faults.Waits(cfg, c', w) && Ignores(cfg, c', w, TheKey(cfg, t)) && SavedGrows(cfg, c, c', w)
    ensures Get(c'.nodes[w].db.tables, TheKey(cfg, t)) == Get(c.nodes[w].db.tables, TheKey(cfg, t))
    ensures var s := cfg.route(OtherKey(cfg, t));
            c'.logs == c.logs[s := c.logs[s] + [Msg(w, Faults.Inserted(t, OtherRow(cfg, t)))]]
  {
    OtherFacts(cfg, t, extra);
    c' := Faults.Tell(cfg, map[], c, w, Insert(t, OtherRow(cfg, t)));
    StillIgnores(cfg, t, extra, c, c', w);
  }

  /** Node `w` writes the other row, publishes it and takes its own message. */
  lemma SpeakAndTake(cfg: Config, t: string, extra: string, c: State, w: nat) returns (c': State)
    requires Usable(cfg, t, extra) && Faults.Reachable(cfg, map[], c) && w < cfg.nodes && Idle(cfg, c, w)
    ensures Faults.Reachable(cfg, map[], c') && OnlyNode(c, c', w) && SameWrites(c.nodes[w], c'.nodes[w])
    ensures Settled(cfg, c', w) && SavedGrows(cfg, c, c', w)
    ensures Get(c'.nodes[w].db.tables, TheKey(cfg, t)) == Get(c.nodes[w].db.tables, TheKey(cfg, t))
    ensures var s := cfg.route(OtherKey(cfg, t));
            c'.logs == c.logs[s := c.logs[s] + [Msg(w, Faults.Inserted(t, OtherRow(cfg, t)))]]
  {
    var c1 := Speak(cfg, t, extra, c, w);
    LeadsSelf(cfg, c1);
    c' := CatchUpNode(cfg, c1, c1, w, 0);
    Faults.QuietReaches(cfg, map[], c1, c');
  }

  /** Streams may discard what every node has saved, as long as something newer is there. */
  lemma DiscardMany(cfg: Config, init: Tables, c: State, s: nat, upTo: nat) returns (c': State)
    requires Faults.Reachable(cfg, init, c) && s < cfg.shards && c.first[s] <= upTo <= Max(1, |c.logs[s]|)
    requires forall m :: 0 <= m < cfg.nodes ==> c.nodes[m].seqMap[s] + 1 >= upTo
    ensures Faults.Reachable(cfg, init, c') && c' == c.(first := c.first[s := upTo])
    decreases upTo - c.first[s]
  {
    if c.first[s] == upTo {
      assert c.first[s := upTo] == c.first;
      c' := c;
    } else {
      Faults.ReachOn(cfg, init, c, Discard(s));
      var c1 := Do(cfg, c, Discard(s));
      c' := DiscardMany(cfg, init, c1, s, upTo);
      assert c.first[s := upTo] == c1.first[s := upTo];
    }
  }

  /** Node `d` is down and has missed the other row, which node `w` has published and taken. */
  ghost predicate Parted(cfg: Config, t: string, extra: string, c: State, n: nat, d: nat, w: nat, down: State) {
    var s, o := cfg.route(TheKey(cfg, t)), cfg.route(OtherKey(cfg, t));
    && Wf(cfg, c) && Faults.Reachable(cfg, map[], down) && d < cfg.nodes && w < cfg.nodes && d != w
    && down.nodes[d] == c.nodes[d].(up := false) && down.snapshots == c.snapshots && down.lost == c.lost
    && Settled(cfg, down, w) && SameWrites(c.nodes[w], down.nodes[w])
    && Get(down.nodes[w].db.tables, TheKey(cfg, t)) == Get(c.nodes[w].db.tables, TheKey(cfg, t))
    && down.logs == c.logs[o := c.logs[o] + [Msg(w, Faults.Inserted(t, OtherRow(cfg, t)))]]
    && down.first == if o == s then c.first[s := n + 1] else c.first
  }

  /** The shard discards the series, which everybody has saved, and node `w` stays settled. */
  lemma DropOld(cfg: Config, t: string, extra: string, c: State, n: nat, w: nat, c1: State) returns (c': State)
    requires Usable(cfg, t, extra) && Even(cfg, t, extra, c, n) && Faults.Reachable(cfg, map[], c1)
    requires w < cfg.nodes && Settled(cfg, c1, w)
    requires cfg.route(OtherKey(cfg, t)) == cfg.route(TheKey(cfg, t)) && c1.first == c.first
    requires |c1.logs[cfg.route(TheKey(cfg, t))]| == n + 1
    requires forall m :: 0 <= m < cfg.nodes ==> c1.nodes[m].seqMap[cfg.route(TheKey(cfg, t))] >= n
    ensures Faults.Reachable(cfg, map[], c') && Settled(cfg, c', w)
    ensures c' == c1.(first := c1.first[cfg.route(TheKey(cfg, t)) := n + 1])
  {
    c' := DiscardMany(cfg, map[], c1, cfg.route(TheKey(cfg, t)), n + 1);
  }

  /**
   Node `d` goes down, node `w` publishes the other row, and if that lands on the shard of the
   series, the shard discards the series.
   */
  lemma Part(cfg: Config, t: string, extra: string, c: State, n: nat, d: nat, w: nat) returns (down: State)
    requires Usable(cfg, t, extra) && Even(cfg, t, extra, c, n) && n > 0
    requires d < cfg.nodes && w < cfg.nodes && d != w && c.nodes[d].up && Idle(cfg, c, w)
    ensures Parted(cfg, t, extra, c, n, d, w, down)
  {
    var s := cfg.route(TheKey(cfg, t));
    var c1 := GoDown(cfg, map[], c, d);
    assert Idle(cfg, c1, w) by {
      forall u | 0 <= u < cfg.shards ensures Current(c1, w, u) { assert Current(c, w, u); }
    }
    down := SpeakAndTake(cfg, t, extra, c1, w);
    assert down.nodes[d] == c1.nodes[d];
    if cfg.route(OtherKey(cfg, t)) == s {
      forall m | 0 <= m < cfg.nodes ensures down.nodes[m].seqMap[s] >= n {
        assert c.nodes[m].seqMap[s] == |c.logs[s]| == n;
      }
      down := DropOld(cfg, t, extra, c, n, w, down);
    }
  }

  lemma PartedIsGapped(cfg: Config, t: string, extra: string, c: State, n: nat, d: nat, w: nat, down: State)
    requires Usable(cfg, t, extra) && Even(cfg, t, extra, c, n) && n > 0 && cfg.snapshots && |c.snapshots| == 1
    requires Parted(cfg, t, extra, c, n, d, w, down)
    ensures Enabled(cfg, down, Restore(d, 0)) && Snapshot.ResumesAfter(down, d, cfg.route(TheKey(cfg, t))) == n
  {
    var s, o := cfg.route(TheKey(cfg, t)), cfg.route(OtherKey(cfg, t));
    assert c.nodes[d].seqMap[o] == |c.logs[o]| && c.nodes[d].seqMap[s] == |c.logs[s]|;
    assert down.nodes[d].seqMap[o] < FirstSeq(down, o);
  }

  lemma PartedRow(cfg: Config, t: string, extra: string, c: State, n: nat, d: nat, w: nat, down: State)
    requires Usable(cfg, t, extra) && Even(cfg, t, extra, c, n) && n > 0
    requires Parted(cfg, t, extra, c, n, d, w, down)
    ensures RowAfter(cfg.schema, down.logs[cfg.route(TheKey(cfg, t))], TheKey(cfg, t), None)
         == Some(RowNo(cfg, t, extra, n - 1))
  {
    OtherFacts(cfg, t, extra);
    SeriesRow(cfg, t, extra, n);
    var s, series := cfg.route(TheKey(cfg, t)), Series(cfg, t, extra, n);
    var other := [Msg(w, Faults.Inserted(t, OtherRow(cfg, t)))];
    RowAfterAppend(cfg.schema, series, other, TheKey(cfg, t), None);
  }

  /** The restored node ignores the key: it believes the series saved, and what else there is concerns another row. */
  lemma RestoredIgnores(cfg: Config, t: string, extra: string, c: State, d: nat, w: nat, c': State)
    requires Usable(cfg, t, extra) && Wf(cfg, c) && Wf(cfg, c') && d < cfg.nodes
    requires forall s :: 0 <= s < cfg.shards ==> c.nodes[d].seqMap[s] == |c.logs[s]|
    requires var o := cfg.route(OtherKey(cfg, t));
             c'.logs == c.logs[o := c.logs[o] + [Msg(w, Faults.Inserted(t, OtherRow(cfg, t)))]]
    requires c'.nodes[d].seqMap == c.nodes[d].seqMap && c'.nodes[d].listeners == FreshListeners(c.nodes[d].seqMap)
    ensures Ignores(cfg, c', d, TheKey(cfg, t)) && Loaded(cfg, c', d)
  {
    OtherFacts(cfg, t, extra);
    forall s | 0 <= s < cfg.shards
      ensures Free(cfg.schema, c'.logs[s], c'.nodes[d].listeners[s].saved, c'.first[s], TheKey(cfg, t))
    {
    }
  }

  lemma StartOver(cfg: Config, init: Tables, down: State, n: nat) returns (c': State)
    requires Faults.Reachable(cfg, init, down) && Enabled(cfg, down, Restore(n, 0))
    ensures Faults.Reachable(cfg, init, c') && c' == Do(cfg, down, Restore(n, 0))
    ensures c'.logs == down.logs && c'.first == down.first
    ensures c'.nodes == down.nodes[n := AfterRestore(down.nodes[n], n, down.snapshots[0])]
    ensures c'.lost == down.lost[Writer(n, down.nodes[n].epoch) := down.nodes[n].queue]
  {
    Faults.ReachOn(cfg, init, down, Restore(n, 0));
    c' := Do(cfg, down, Restore(n, 0));
  }

  /** Node `d` is restored and takes what is left, and keeps the row of the snapshot. */
  ghost predicate Returned(cfg: Config, t: string, d: nat, w: nat, down: State, c': State) {
    && RestoredTo(cfg, map[], down, d, 0, c') && Faults.Reachable(cfg, map[], c') && w < cfg.nodes
    && Settled(cfg, c', d) && Settled(cfg, c', w) && c'.nodes[w] == down.nodes[w] && c'.logs == down.logs
    && Get(c'.nodes[d].db.tables, TheKey(cfg, t)) == Get(down.snapshots[0].tables, TheKey(cfg, t))
    && c'.nodes[d].queue == [] && c'.nodes[d].epoch == down.nodes[d].epoch + 1
    && c'.nodes[d].db.carriers == down.snapshots[0].carriers + {Writer(d, c'.nodes[d].epoch)}
    && c'.lost == down.lost[Writer(d, down.nodes[d].epoch) := down.nodes[d].queue]
  }

  /** The restored node takes what there is. */
  lemma TakeRest(cfg: Config, init: Tables, down: State, d: nat, c: State) returns (c': State)
    requires Faults.Reachable(cfg, init, down) && Enabled(cfg, down, Restore(d, 0)) && c == Do(cfg, down, Restore(d, 0))
    requires Faults.Reachable(cfg, init, c) && Faults.Waits(cfg, c, d)
    ensures RestoredTo(cfg, init, down, d, 0, c') && Faults.Reachable(cfg, init, c')
    ensures CaughtUpFrom(cfg, c, c', d) && Settled(cfg, c', d)
  {
    LeadsSelf(cfg, c);
    c' := CatchUpNode(cfg, c, c, d, 0);
    Faults.QuietReaches(cfg, init, c, c');
    var later :| QuietRun(cfg, c, later, c');
    QuietIsCalm(cfg, c, later, c', d);
  }

  lemma ComeBack(cfg: Config, t: string, extra: string, c: State, n: nat, d: nat, w: nat, down: State)
      returns (c': State)
    requires Usable(cfg, t, extra) && Even(cfg, t, extra, c, n) && n > 0 && cfg.snapshots && |c.snapshots| == 1
    requires Parted(cfg, t, extra, c, n, d, w, down)
    ensures Returned(cfg, t, d, w, down, c')
  {
    PartedIsGapped(cfg, t, extra, c, n, d, w, down);
    var c1 := StartOver(cfg, map[], down, d);
    RestoredIgnores(cfg, t, extra, c, d, w, c1);
    c' := TakeRest(cfg, map[], down, d, c1);
    assert Settled(cfg, down, w) && c'.nodes[w] == down.nodes[w];
  }

  lemma RowsDiffer(cfg: Config, t: string, extra: string, i: int, j: int)
    requires Usable(cfg, t, extra) && i != j
    ensures RowNo(cfg, t, extra, i) != RowNo(cfg, t, extra, j)
  {
    RowNoFacts(cfg, t, extra, i);
    RowNoFacts(cfg, t, extra, j);
  }

  /** The row of an earlier snapshot is not the row of the whole series. */
  lemma OldRow(cfg: Config, t: string, extra: string, at: nat, from: nat, row: Option<Row>)
    requires Usable(cfg, t, extra) && at < from && row == if at == 0 then None else Some(RowNo(cfg, t, extra, at - 1))
    ensures row != Some(RowNo(cfg, t, extra, from - 1))
    ensures RowAfter(cfg.schema, Series(cfg, t, extra, from), TheKey(cfg, t), None)
         == Some(RowNo(cfg, t, extra, from - 1))
  {
    SeriesRow(cfg, t, extra, from);
    RowsDiffer(cfg, t, extra, at - 1, from - 1);
  }

  /** Nothing is left to publish. */
  lemma ReturnedHasPublished(c: State)
    requires |c.nodes| >= 2 && c.nodes[0].queue == c.nodes[1].queue == []
    requires c.nodes[0].epoch == 0 && c.nodes[1].epoch == 1
    requires c.nodes[1].db.carriers == {Writer(0, 0)} + {Writer(1, 1)}
    ensures Published(c, c.nodes[1].db.carriers)
  {
  }

  /**
   For every resume position beyond the snapshot's there is a run, without early discards and with
   every publish saving, in which the restored node ends settled with an old row. All nodes had
   saved everything when one went down. A message under another key, on the same shard or on one
   that was unused, then made the node restore.
   */
  lemma LateResumeLoses(cfg: Config, t: string, extra: string, at: nat, from: nat) returns (down: State, c': State)
    requires Usable(cfg, t, extra) && cfg.snapshots && at < from
    ensures EndsWrong(cfg, cfg.route(TheKey(cfg, t)), at, from, map[], down, 1, 0, c', TheKey(cfg, t))
    ensures Faults.Diverges(cfg, map[], c')
  {
    var c := WriteRest(cfg, t, extra, at, from);
    StagedIsEven(cfg, t, extra, c, from);
    StagedIsIdle(cfg, t, extra, c, from, 0);
    StagedRow(cfg, t, extra, c, from, 0);
    StagedSaved(cfg, t, extra, c, from, 0);
    StagedSaved(cfg, t, extra, c, from, 1);
    down := Part(cfg, t, extra, c, from, 1, 0);
    PartedIsGapped(cfg, t, extra, c, from, 1, 0, down);
    PartedRow(cfg, t, extra, c, from, 1, 0, down);
    c' := ComeBack(cfg, t, extra, c, from, 1, 0, down);
    ReturnedHasPublished(c');
    OldRow(cfg, t, extra, at, from, Get(c.snapshots[0].tables, TheKey(cfg, t)));
  }

  /**
   The snapshot's position decides. A node that resumes the shard at or before it ends with the
   right rows of the shard in every run that is calm for the node after the restore, once it is
   settled and everything its database carries is published; and for every later resume position
   there is a run of that kind in which it ends with a wrong row.
   */
  lemma RestoreExactly(cfg: Config, t: string, extra: string, at: nat, from: nat)
    requires Usable(cfg, t, extra) && cfg.snapshots
    ensures RestoreSound(cfg, cfg.route(TheKey(cfg, t)), at, from) <==> from <= at
  {
    var s := cfg.route(TheKey(cfg, t));
    if from <= at {
      forall init, c, n: nat, k: nat, c', key ensures !EndsWrong(cfg, s, at, from, init, c, n, k, c', key) {
        EarlyResumeIsRight(cfg, s, at, from, init, c, n, k, c', key);
      }
    } else {
      var down, c' := LateResumeLoses(cfg, t, extra, at, from);
    }
  }

  // ---------- captured changes and snapshots ----------

  /** Node 0 has a row in its database, captured and in a snapshot, that it has not published. */
  ghost predicate Caught(cfg: Config, t: string, extra: string, c: State, c': State) {
    && cfg.nodes >= 2 && |c.nodes| == cfg.nodes && Faults.Reachable(cfg, map[], c')
    && c'.logs == c.logs && c'.first == c.first
    && c'.nodes == c.nodes[0 := AfterWrite(cfg, c.nodes[0], 0, Insert(t, RowNo(cfg, t, extra, 1)))]
    && c'.snapshots == [c'.nodes[0].db]
  }

  lemma CatchChange(cfg: Config, t: string, extra: string, c: State) returns (c': State)
    requires Usable(cfg, t, extra) && Faults.Reachable(cfg, map[], c) && c.nodes[0].queue == [] && c.snapshots == []
    ensures Caught(cfg, t, extra, c, c')
  {
    RowNoFacts(cfg, t, extra, 1);
    var c1 := Faults.WriteOnly(cfg, map[], c, 0, Insert(t, RowNo(cfg, t, extra, 1)));
    Faults.ReachOn(cfg, map[], c1, TakeSnapshot(0));
    c' := Do(cfg, c1, TakeSnapshot(0));
  }

  lemma CaughtIsEven(cfg: Config, t: string, extra: string, c: State, c': State)
    requires Usable(cfg, t, extra) && Even(cfg, t, extra, c, 1) && Idle(cfg, c, 1) && Caught(cfg, t, extra, c, c')
    ensures Even(cfg, t, extra, c', 1) && Idle(cfg, c', 1) && c'.nodes[1] == c.nodes[1]
    ensures Get(c'.snapshots[0].tables, TheKey(cfg, t)) == Some(RowNo(cfg, t, extra, 1))
    ensures c'.nodes[0].queue == c.nodes[0].queue + [Faults.Inserted(t, RowNo(cfg, t, extra, 1))]
  {
    RowNoFacts(cfg, t, extra, 1);
    forall m, s | 0 <= m < cfg.nodes && 0 <= s < cfg.shards ensures c'.nodes[m].seqMap[s] == |c'.logs[s]| {
      assert c.nodes[m].seqMap[s] == |c.logs[s]|;
    }
    forall s | 0 <= s < cfg.shards ensures Current(c', 1, s) {
      assert Current(c, 1, s);
    }
  }

  /** One row is written, and taken and saved everywhere. */
  lemma StageOne(cfg: Config, t: string, extra: string) returns (c: State)
    requires Usable(cfg, t, extra)
    ensures Even(cfg, t, extra, c, 1) && Idle(cfg, c, 1) && c.snapshots == [] && Drained(c) && Own(c, 0)
    ensures c.nodes[0].db.shown[cfg.route(TheKey(cfg, t))] == 1
    ensures Get(c.nodes[1].db.tables, TheKey(cfg, t)) == Some(RowNo(cfg, t, extra, 0))
  {
    var c0 := StartStaged(cfg, t, extra);
    c := WriteMany(cfg, t, extra, c0, 0, 1);
    StagedIsEven(cfg, t, extra, c, 1);
    StagedIsIdle(cfg, t, extra, c, 1, 1);
    StagedRow(cfg, t, extra, c, 1, 1);
    StagedSaved(cfg, t, extra, c, 1, 0);
  }

  /**
   Positions alone do not suffice: a node restored from a snapshot that holds a captured change of
   a queue which restoring drops keeps that row for good, although it resumes in time. So a restored
   node is only promised the right rows once the changes its snapshot carries are published.
   */
  lemma DroppedChangeStays(cfg: Config, t: string, extra: string) returns (down: State, c': State)
    requires Usable(cfg, t, extra) && cfg.snapshots
    ensures RestoredTo(cfg, map[], down, 0, 0, c')
    ensures var s := cfg.route(TheKey(cfg, t)); Snapshot.ResumesAfter(down, 0, s) <= down.snapshots[0].shown[s]
    ensures Faults.Diverges(cfg, map[], c') && c'.nodes[0].queue == [] && QueueOf(c', Writer(0, 0)) != []
  {
    var c := StageOne(cfg, t, extra);
    var caught := CatchChange(cfg, t, extra, c);
    CaughtIsEven(cfg, t, extra, c, caught);
    down := Part(cfg, t, extra, caught, 1, 0, 1);
    PartedIsGapped(cfg, t, extra, caught, 1, 0, 1, down);
    c' := ComeBack(cfg, t, extra, caught, 1, 0, 1, down);
    RowsDiffer(cfg, t, extra, 0, 1);
  }
}
