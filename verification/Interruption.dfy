/**
 Why a node must not stop between publishing and taking its own message back.

 With snapshots enabled publishing moves the saved sequence onto the node's own message. A listener
 that keeps running takes that message all the same, and one that starts again passes it over.
 */
module Interruption {
  import opened Wrappers
  import opened Rows
  import opened Replay
  import opened Cluster
  import opened Coverage
  import opened Convergence
  import opened Progress
  import opened Recovery
  import Faults

  // ---------- two nodes write one row ----------

  /** The message of node 1, whose row is the one numbered 0. */
  function Theirs(cfg: Config, t: string, extra: string): Msg {
    Msg(1, Faults.Inserted(t, RowNo(cfg, t, extra, 0)))
  }

  /** The message of node 0, whose row is the one numbered 1. */
  function Ours(cfg: Config, t: string, extra: string): Msg {
    Msg(0, Faults.Inserted(t, RowNo(cfg, t, extra, 1)))
  }

  /** Nodes 0 and 1 have each written the row, and `log` has been published. */
  ghost predicate Racing(cfg: Config, t: string, c: State, log: seq<Msg>) {
    CalmlyReached(cfg, map[], c) && cfg.nodes >= 2 && c.nodes[0].up && c.nodes[1].up && c.snapshots == []
    && Faults.HoldsOnly(cfg, c, cfg.route(TheKey(cfg, t)), log)
  }

  lemma StartTwo(cfg: Config, t: string, extra: string) returns (c: State)
    requires Usable(cfg, t, extra)
    ensures Racing(cfg, t, c, []) && c.nodes[0].queue == c.nodes[1].queue == []
  {
    c := StartStaged(cfg, t, extra);
    assert Series(cfg, t, extra, 0) == [];
  }

  /** Node `n`, one of the two, writes. */
  lemma WriteCalmly(cfg: Config, t: string, c: State, n: nat, row: Row) returns (c': State)
    requires t in cfg.schema && WireSafe(cfg.schema, Faults.Inserted(t, row)) && n < 2
    requires Racing(cfg, t, c, []) && c.nodes[n].queue == []
    ensures Racing(cfg, t, c', []) && c'.nodes[n].queue == [Faults.Inserted(t, row)]
    ensures c'.nodes[1 - n] == c.nodes[1 - n]
  {
    c' := WriteOne(cfg, map[], c, n, t, row);
    assert c'.nodes[1 - n] == c.nodes[1 - n];
  }

  lemma WriteBoth(cfg: Config, t: string, c: State, ours: Row, theirs: Row) returns (c': State)
    requires t in cfg.schema && Racing(cfg, t, c, []) && c.nodes[0].queue == c.nodes[1].queue == []
    requires WireSafe(cfg.schema, Faults.Inserted(t, ours)) && WireSafe(cfg.schema, Faults.Inserted(t, theirs))
    ensures Racing(cfg, t, c', [])
    ensures c'.nodes[0].queue == [Faults.Inserted(t, ours)] && c'.nodes[1].queue == [Faults.Inserted(t, theirs)]
  {
    var c1 := WriteCalmly(cfg, t, c, 0, ours);
    c' := WriteCalmly(cfg, t, c1, 1, theirs);
  }

  lemma StartRace(cfg: Config, t: string, extra: string) returns (c: State)
    requires Usable(cfg, t, extra)
    ensures Racing(cfg, t, c, [])
    ensures c.nodes[0].queue == [Ours(cfg, t, extra).event] && c.nodes[1].queue == [Theirs(cfg, t, extra).event]
  {
    RowNoFacts(cfg, t, extra, 0);
    RowNoFacts(cfg, t, extra, 1);
    var c0 := StartTwo(cfg, t, extra);
    c := WriteBoth(cfg, t, c0, RowNo(cfg, t, extra, 1), RowNo(cfg, t, extra, 0));
  }

  /** On a stream without messages every listener is current. */
  lemma UnusedIsCurrent(cfg: Config, c: State, n: nat, s: nat)
    requires Replicable(cfg) && CalmlyReached(cfg, map[], c)
    requires n < cfg.nodes && s < cfg.shards && c.nodes[n].up && c.logs[s] == []
    ensures Current(c, n, s) && c.nodes[n].seqMap[s] == c.nodes[n].listeners[s].cursor == 0
  {
    CalmlySteady(cfg, map[], c);
    assert NodeOnTrack(cfg, c, n) && OnTrack(PositionOf(c, n, s));
    assert ImageInv(cfg, map[], c, c.nodes[n].db);
  }

  /** Node 1 publishes first. */
  lemma TheyPublish(cfg: Config, t: string, extra: string) returns (c: State)
    requires Usable(cfg, t, extra) && cfg.snapshots
    ensures Racing(cfg, t, c, [] + [Theirs(cfg, t, extra)])
    ensures c.nodes[0].queue == [Ours(cfg, t, extra).event] && c.nodes[1].queue == []
    ensures var s := cfg.route(TheKey(cfg, t)); var l := c.nodes[0].listeners[s];
            l.inflight == l.cursor == l.saved == c.nodes[0].seqMap[s] == 0
  {
    RowNoFacts(cfg, t, extra, 0);
    var s := cfg.route(TheKey(cfg, t));
    var c0 := StartRace(cfg, t, extra);
    UnusedIsCurrent(cfg, c0, 0, s);
    UnusedIsCurrent(cfg, c0, 1, s);
    c := PublishNext(cfg, map[], c0, 1, s);
    Faults.HoldsMore(cfg, c0, c, s, [], Theirs(cfg, t, extra));
    assert c.nodes[0] == c0.nodes[0];
  }

  /** Node 0 takes the first message of a shard. */
  lemma TakeFirst(cfg: Config, c: State, s: nat) returns (c': State)
    requires CalmlyReached(cfg, map[], c) && cfg.nodes >= 1 && s < cfg.shards && c.nodes[0].up
    requires |c.logs[s]| == 1 && c.first[s] == 1 && c.nodes[0].seqMap[s] == 0
    requires c.nodes[0].listeners[s].inflight == c.nodes[0].listeners[s].cursor == c.nodes[0].listeners[s].saved == 0
    ensures CalmlyReached(cfg, map[], c') && OnlyNode(c, c', 0) && c'.logs == c.logs
    ensures SameWrites(c.nodes[0], c'.nodes[0]) && Current(c', 0, s) && c'.nodes[0].seqMap[s] == 1
    ensures Get(c'.nodes[0].db.tables, MsgKey(cfg.schema, c.logs[s][0])) == After(c.logs[s][0].event)
  {
    assert WfLog(cfg, s, c.logs[s]);
    var event := c.logs[s][0].event;
    ReplicateIsBlindWrite(cfg.schema, c.nodes[0].db.tables, event, EventKey(cfg.schema, event));
    var c1 := CalmOn(cfg, map[], c, Deliver(0, s, 1));
    c' := CalmOn(cfg, map[], c1, SaveSeq(0, s));
  }

  /** Node 0 has taken and saved the other's row over its own and then published its own. */
  ghost predicate Overtaken(cfg: Config, t: string, extra: string, c: State) {
    var s := cfg.route(TheKey(cfg, t));
    && Racing(cfg, t, c, [Theirs(cfg, t, extra)] + [Ours(cfg, t, extra)]) && c.nodes[0].queue == c.nodes[1].queue == []
    && s < cfg.shards && c.nodes[0].seqMap[s] == 2
    && Get(c.nodes[0].db.tables, TheKey(cfg, t)) == Some(RowNo(cfg, t, extra, 0))
  }

  /** Node 1 has published, and node 0 has taken and saved that. */
  lemma WeTake(cfg: Config, t: string, extra: string) returns (c: State)
    requires Usable(cfg, t, extra) && cfg.snapshots
    ensures Racing(cfg, t, c, [Theirs(cfg, t, extra)])
    ensures c.nodes[0].queue == [Ours(cfg, t, extra).event] && c.nodes[1].queue == []
    ensures var s := cfg.route(TheKey(cfg, t)); Current(c, 0, s) && c.nodes[0].seqMap[s] == 1
    ensures Get(c.nodes[0].db.tables, TheKey(cfg, t)) == Some(RowNo(cfg, t, extra, 0))
  {
    RowNoFacts(cfg, t, extra, 0);
    var c0 := TheyPublish(cfg, t, extra);
    assert [] + [Theirs(cfg, t, extra)] == [Theirs(cfg, t, extra)];
    c := TakeFirst(cfg, c0, cfg.route(TheKey(cfg, t)));
    assert c.nodes[1] == c0.nodes[1];
  }

  lemma Overtake(cfg: Config, t: string, extra: string) returns (c: State)
    requires Usable(cfg, t, extra) && cfg.snapshots
    ensures Overtaken(cfg, t, extra, c)
  {
    RowNoFacts(cfg, t, extra, 1);
    var s := cfg.route(TheKey(cfg, t));
    var c0 := WeTake(cfg, t, extra);
    c := PublishNext(cfg, map[], c0, 0, s);
    Faults.HoldsMore(cfg, c0, c, s, [Theirs(cfg, t, extra)], Ours(cfg, t, extra));
    assert c.nodes[1] == c0.nodes[1];
  }

  /** What the two messages leave. */
  lemma LastIsOurs(cfg: Config, t: string, extra: string)
    requires Usable(cfg, t, extra)
    ensures RowAfter(cfg.schema, [Theirs(cfg, t, extra)] + [Ours(cfg, t, extra)], TheKey(cfg, t), None)
         == Some(RowNo(cfg, t, extra, 1))
  {
    RowNoFacts(cfg, t, extra, 1);
    RowAfterAppend(cfg.schema, [Theirs(cfg, t, extra)], [Ours(cfg, t, extra)], TheKey(cfg, t), None);
  }

  /** Node 1 takes both messages and ends with the row published last. */
  lemma TheyTake(cfg: Config, t: string, extra: string, c: State) returns (c': State)
    requires Usable(cfg, t, extra) && Overtaken(cfg, t, extra, c)
    ensures Overtaken(cfg, t, extra, c') && Settled(cfg, c', 1)
    ensures Get(c'.nodes[1].db.tables, TheKey(cfg, t)) == Some(RowNo(cfg, t, extra, 1))
  {
    LastIsOurs(cfg, t, extra);
    CalmlySteady(cfg, map[], c);
    SteadyIsLoaded(cfg, map[], c, 1);
    LeadsSelf(cfg, c);
    c' := CatchUpNode(cfg, c, c, 1, 0);
    CalmLeads(cfg, map[], c, c');
    LeadsSteady(cfg, map[], c, c');
    assert c'.nodes[0] == c.nodes[0];
    SteadySettles(cfg, map[], c', 1);
  }

  // ---------- the interruption ----------

  lemma StartAgain(cfg: Config, c: State, n: nat) returns (down: State, c': State)
    requires Wf(cfg, c) && n < cfg.nodes && c.nodes[n].up
    requires !(cfg.snapshots && |c.snapshots| > 0 && Gapped(c, n))
    ensures down == c.(nodes := c.nodes[n := c.nodes[n].(up := false)]) && Wf(cfg, down)
    ensures Enabled(cfg, c, Crash(n)) && down == Do(cfg, c, Crash(n)) && Leads(cfg, down, c')
    ensures c' == c.(nodes := c.nodes[n := c.nodes[n].(listeners := FreshListeners(c.nodes[n].seqMap))])
  {
    StepKeepsWf(cfg, c, Crash(n));
    down := Do(cfg, c, Crash(n));
    LeadsSelf(cfg, down);
    LeadsOn(cfg, down, down, Restart(n));
    c' := Do(cfg, down, Restart(n));
  }

  /**
   A node that stops and starts again never changes a row whose messages are all saved, whether or
   not its database shows them: a row that differs from what the saved messages leave stays wrong.
   */
  lemma InterruptedRow(cfg: Config, c: State, n: nat, key: RowKey) returns (down: State, c': State)
    requires Wf(cfg, c) && n < cfg.nodes && c.nodes[n].up && c.nodes[n].queue == []
    requires !(cfg.snapshots && |c.snapshots| > 0 && Gapped(c, n))
    requires forall s :: 0 <= s < cfg.shards ==> Free(cfg.schema, c.logs[s], c.nodes[n].seqMap[s], c.first[s], key)
    ensures Enabled(cfg, c, Crash(n)) && down == Do(cfg, c, Crash(n)) && Leads(cfg, down, c')
    ensures Settled(cfg, c', n) && OnlyNode(c, c', n) && c'.logs == c.logs
    ensures Get(c'.nodes[n].db.tables, key) == Get(c.nodes[n].db.tables, key)
  {
    var c1;
    down, c1 := StartAgain(cfg, c, n);
    assert Ignores(cfg, c1, n, key);
    c' := CatchUpNode(cfg, down, c1, n, 0);
  }

  /** What node 0 has saved is missing from its database. */
  lemma OvertakenIsUnsafe(cfg: Config, t: string, extra: string, c: State)
    requires Usable(cfg, t, extra) && Overtaken(cfg, t, extra, c)
    ensures !Safe(cfg, c, 0)
  {
    if Safe(cfg, c, 0) {
      var key := TheKey(cfg, t);
      CalmlySteady(cfg, map[], c);
      assert ImageInv(cfg, map[], c, c.nodes[0].db) && Own(c, 0);
      PublishedNotPending(cfg, c, c.nodes[0].db.carriers, key);
      ShownRow(cfg, map[], c, c.nodes[0].db, key);
      LastIsOurs(cfg, t, extra);
      RowsDiffer(cfg, t, extra, 0, 1);
      assert false;
    }
  }

  /** Node 0 is interrupted before it takes its own message back. */
  lemma Interrupt(cfg: Config, t: string, extra: string, c: State) returns (c': State)
    requires Usable(cfg, t, extra) && Overtaken(cfg, t, extra, c) && Settled(cfg, c, 1)
    ensures Enabled(cfg, c, Crash(0)) && Leads(cfg, Do(cfg, c, Crash(0)), c')
    ensures Settled(cfg, c', 0) && Settled(cfg, c', 1) && c'.nodes[1] == c.nodes[1]
    ensures Get(c'.nodes[0].db.tables, TheKey(cfg, t)) == Some(RowNo(cfg, t, extra, 0))
  {
    var key := TheKey(cfg, t);
    forall s | 0 <= s < cfg.shards ensures Free(cfg.schema, c.logs[s], c.nodes[0].seqMap[s], c.first[s], key) {
    }
    var down;
    down, c' := InterruptedRow(cfg, c, 0, key);
  }

  /**
   Publishing only where the listener is current is not enough with snapshots enabled. There is a
   run, calm for every node, after which a single crash of a node that has not taken its own
   message back leaves two settled nodes with different databases.
   */
  lemma CrashAfterPublishDiverges(cfg: Config, t: string, extra: string) returns (c: State, c': State)
    requires Usable(cfg, t, extra) && cfg.snapshots
    ensures CalmlyReached(cfg, map[], c) && Enabled(cfg, c, Crash(0)) && !Safe(cfg, c, 0)
    ensures Leads(cfg, Do(cfg, c, Crash(0)), c') && Faults.Diverges(cfg, map[], c')
  {
    var c0 := Overtake(cfg, t, extra);
    c := TheyTake(cfg, t, extra, c0);
    OvertakenIsUnsafe(cfg, t, extra, c);
    c' := Interrupt(cfg, t, extra, c);
    CalmlyReachable(cfg, map[], c);
    Faults.ReachOn(cfg, map[], c, Crash(0));
    Faults.QuietReaches(cfg, map[], Do(cfg, c, Crash(0)), c');
    RowsDiffer(cfg, t, extra, 0, 1);
  }
}
