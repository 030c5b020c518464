/**
 The publisher over its capture log is the protocol's publisher.

 A node's queue is the queue of its capture log. A whole publish, with its refusals, failed
 publishes and failed markings, is a run of the protocol that leaves the queue of the log it leaves
 and appends exactly the changes that reached the streams, in the order of the log.
 */
module PublisherRun {
  import opened Rows
  import opened Replay
  import opened Cluster
  import opened LastWrite
  import Log = CaptureLog
  import Publisher
  import Wire

  /** Node `n` is up and its queue is that of its capture log. */
  ghost predicate Reflects(cfg: Config, c: State, n: nat, log: Log.Log) {
    Wf(cfg, c) && n < cfg.nodes && c.nodes[n].up && Log.Paired(log) && c.nodes[n].queue == Log.Queue(log)
  }

  /**
   The change a statement makes its trigger record: it joins the end of the queue, and applied to
   any database it leaves under its key what the statement left there on its own node.
   */
  lemma CaptureIsWrite(cfg: Config, c: State, n: nat, log: Log.Log, stmt: Statement, now: int)
    requires Reflects(cfg, c, n, log) && stmt.table in log.tables
    requires Enabled(cfg, c, LocalWrite(n, log.tables[stmt.table].nextId, stmt))
    ensures var event := Captured(log.tables[stmt.table].nextId, stmt);
            Reflects(cfg, Do(cfg, c, LocalWrite(n, event.id, stmt)), n,
                     Log.Capture(log, stmt.table, event.kind, event.row, now))
            && Log.Queue(Log.Capture(log, stmt.table, event.kind, event.row, now)) == Log.Queue(log) + [event]
    ensures var event, key := Captured(log.tables[stmt.table].nextId, stmt), KeyWritten(cfg.schema, stmt);
            forall tables ::
              Replicate(cfg.schema, tables, event).Success?
              && Get(Replicate(cfg.schema, tables, event).value, key)
                 == Get(Execute(cfg.schema, c.nodes[n].db.tables, stmt), key)
  {
    var event := Captured(log.tables[stmt.table].nextId, stmt);
    forall tables
      ensures Replicate(cfg.schema, tables, event).Success?
      ensures Get(Replicate(cfg.schema, tables, event).value, KeyWritten(cfg.schema, stmt))
           == Get(Execute(cfg.schema, c.nodes[n].db.tables, stmt), KeyWritten(cfg.schema, stmt))
    {
      CapturedIsWrite(cfg.schema, c.nodes[n].db.tables, tables, event.id, stmt);
    }
    StepKeepsWf(cfg, c, LocalWrite(n, event.id, stmt));
    Log.CaptureKeepsPaired(log, stmt.table, event.kind, event.row, now);
    Log.QueueOfCapture(log, stmt.table, event.kind, event.row, now);
  }

  // ---------- what reaches the streams ----------

  /** Every event is appended to the log of its shard. */
  function Spread(cfg: Config, n: nat, logs: seq<seq<Msg>>, events: seq<Event>): (r: seq<seq<Msg>>)
    requires forall key :: cfg.route(key) < |logs|
    ensures |r| == |logs|
    decreases |events|
  {
    if |events| == 0 then logs
    else
      var s := cfg.route(EventKey(cfg.schema, events[0]));
      Spread(cfg, n, logs[s := logs[s] + [Msg(n, Wire.OverWire(events[0]))]], events[1..])
  }

  /** The messages of some events that go to shard `s`, in order. */
  function ShardMessages(cfg: Config, n: nat, events: seq<Event>, s: nat): seq<Msg> {
    if |events| == 0 then []
    else
      (if cfg.route(EventKey(cfg.schema, events[0])) == s then [Msg(n, Wire.OverWire(events[0]))] else [])
      + ShardMessages(cfg, n, events[1..], s)
  }

  /** Each shard grows by its own events, in order, and by nothing else. */
  lemma {:induction false} SpreadByShard(cfg: Config, n: nat, logs: seq<seq<Msg>>, events: seq<Event>, s: nat)
    requires (forall key :: cfg.route(key) < |logs|) && s < |logs|
    ensures Spread(cfg, n, logs, events)[s] == logs[s] + ShardMessages(cfg, n, events, s)
    decreases |events|
  {
    if |events| == 0 {
    } else {
      var u := cfg.route(EventKey(cfg.schema, events[0]));
      SpreadByShard(cfg, n, logs[u := logs[u] + [Msg(n, Wire.OverWire(events[0]))]], events[1..], s);
    }
  }

  // ---------- one publish ----------

  /** Whether the stream takes the next change; it does when nothing is said. */
  function SentAt(sent: seq<bool>): bool {
    if |sent| > 0 then sent[0] else true
  }

  function LaterSent(sent: seq<bool>): seq<bool> {
    if |sent| > 0 then sent[1..] else []
  }

  /** The events of the changes handed over that the streams took. */
  function Taken(log: Log.Log, handed: seq<Log.GlobalRow>, sent: seq<bool>): seq<Event>
    decreases |handed|
  {
    if |handed| == 0 then []
    else (if SentAt(sent) then [Log.EventOf(log, handed[0])] else []) + Taken(log, handed[1..], LaterSent(sent))
  }

  /** Changes scanned from the log and not yet gone through. */
  ghost predicate Scanned(log: Log.Log, changes: seq<Log.GlobalRow>) {
    Log.Ascending(changes) && forall g :: g in changes ==> g in log.global
  }

  function AfterHanding(log: Log.Log, g: Log.GlobalRow, marked: bool): Log.Log {
    if marked then Log.Mark(log, g) else log
  }

  /** Handing one change over leaves the other scanned changes and their events alone. */
  lemma HandingKeepsRest(log: Log.Log, changes: seq<Log.GlobalRow>, marked: bool)
    requires Log.Paired(log) && |changes| > 0 && Scanned(log, changes)
    ensures var log' := AfterHanding(log, changes[0], marked);
            Log.Paired(log') && Scanned(log', changes[1..])
            && forall g :: g in changes[1..] ==> Log.EventOf(log', g) == Log.EventOf(log, g)
  {
    assert changes[0] in changes;
    var i :| 0 <= i < |log.global| && log.global[i] == changes[0];
    Log.MarkKeepsPaired(log, i);
    Log.MarkOthers(log, i);
    forall g | g in changes[1..] ensures g in log.global && g.id != changes[0].id {
      assert g in changes;
    }
    if marked {
      forall g | g in changes[1..] ensures g in Log.Mark(log, changes[0]).global {
        Log.DropIdMembers(log.global, changes[0].id, g);
      }
    }
  }

  lemma {:induction false} SameTaken(log: Log.Log, log': Log.Log, handed: seq<Log.GlobalRow>, sent: seq<bool>)
    requires forall g :: g in handed ==> Log.EventOf(log', g) == Log.EventOf(log, g)
    ensures Taken(log', handed, sent) == Taken(log, handed, sent)
    decreases |handed|
  {
    if |handed| == 0 {
    } else {
      assert handed[0] in handed;
      SameTaken(log, log', handed[1..], LaterSent(sent));
    }
  }

  /** The change at position `i` is published: the protocol's publish step. */
  lemma PublishOne(cfg: Config, c: State, n: nat, log: Log.Log, i: nat, marked: bool) returns (c': State)
    requires Reflects(cfg, c, n, log) && i < |log.global|
    ensures IsRun(cfg, c, [Publish(n, i, marked, cfg.snapshots)], c')
    ensures Reflects(cfg, c', n, AfterHanding(log, log.global[i], marked))
    ensures c'.logs == Spread(cfg, n, c.logs, [Log.EventOf(log, log.global[i])])
  {
    var step := Publish(n, i, marked, cfg.snapshots);
    RunOne(cfg, c, step);
    StepKeepsWf(cfg, c, step);
    c' := Do(cfg, c, step);
    Log.QueueOfMark(log, i);
    Log.MarkKeepsPaired(log, i);
    assert [Log.EventOf(log, log.global[i])][1..] == [];
  }

  /** Publishing fails and the change is marked all the same. */
  lemma LoseOne(cfg: Config, c: State, n: nat, log: Log.Log, i: nat) returns (c': State)
    requires Reflects(cfg, c, n, log) && i < |log.global| && cfg.lossyPublish
    ensures IsRun(cfg, c, [PublishLost(n, i)], c')
    ensures Reflects(cfg, c', n, Log.Mark(log, log.global[i])) && c'.logs == c.logs
  {
    var step := PublishLost(n, i);
    RunOne(cfg, c, step);
    StepKeepsWf(cfg, c, step);
    c' := Do(cfg, c, step);
    Log.QueueOfMark(log, i);
    Log.MarkKeepsPaired(log, i);
  }

  /** One change is handed over; `sent` says whether its stream took it. */
  lemma HandOver(cfg: Config, c: State, n: nat, log: Log.Log, g: Log.GlobalRow, marked: bool, sent: bool)
      returns (steps: seq<Step>, c': State)
    requires Reflects(cfg, c, n, log) && g in log.global && (sent || cfg.lossyPublish)
    ensures IsRun(cfg, c, steps, c') && Reflects(cfg, c', n, AfterHanding(log, g, marked))
    ensures c'.logs == Spread(cfg, n, c.logs, if sent then [Log.EventOf(log, g)] else [])
  {
    var i :| 0 <= i < |log.global| && log.global[i] == g;
    if sent {
      steps := [Publish(n, i, marked, cfg.snapshots)];
      c' := PublishOne(cfg, c, n, log, i, marked);
    } else if marked {
      steps := [PublishLost(n, i)];
      c' := LoseOne(cfg, c, n, log, i);
    } else {
      steps, c' := [], c;
    }
  }

  lemma {:induction false} SpreadAppend(cfg: Config, n: nat, logs: seq<seq<Msg>>, xs: seq<Event>, ys: seq<Event>)
    requires forall key :: cfg.route(key) < |logs|
    ensures Spread(cfg, n, Spread(cfg, n, logs, xs), ys) == Spread(cfg, n, logs, xs + ys)
    decreases |xs|
  {
    if |xs| == 0 {
      assert xs + ys == ys;
    } else {
      assert (xs + ys)[1..] == xs[1..] + ys;
      var s := cfg.route(EventKey(cfg.schema, xs[0]));
      SpreadAppend(cfg, n, logs[s := logs[s] + [Msg(n, Wire.OverWire(xs[0]))]], xs[1..], ys);
    }
  }

  /** Only scanned changes are handed over, in order. */
  lemma {:induction false} HandedScanned(log: Log.Log, changes: seq<Log.GlobalRow>, outcomes: seq<Log.Outcome>)
    ensures Publisher.RunPass(log, changes, outcomes).handed <= changes
    decreases |changes|
  {
    if |changes| == 0 {
    } else if Publisher.OutcomeAt(outcomes).Handed? {
      HandedScanned(AfterHanding(log, changes[0], Publisher.OutcomeAt(outcomes).marked), changes[1..],
                    Publisher.Later(outcomes));
    }
  }

  /** What a publish leaves is what it leaves after its first change. */
  lemma TakenFirst(log: Log.Log, changes: seq<Log.GlobalRow>, outcomes: seq<Log.Outcome>, sent: seq<bool>)
    requires Log.Paired(log) && |changes| > 0 && Scanned(log, changes) && Publisher.OutcomeAt(outcomes).Handed?
    ensures var log1 := AfterHanding(log, changes[0], Publisher.OutcomeAt(outcomes).marked);
            var pass := Publisher.RunPass(log, changes, outcomes);
            var rest := Publisher.RunPass(log1, changes[1..], Publisher.Later(outcomes));
            && pass.log == rest.log && pass.panicked == rest.panicked
            && Taken(log, pass.handed, sent)
               == (if SentAt(sent) then [Log.EventOf(log, changes[0])] else [])
                  + Taken(log1, rest.handed, LaterSent(sent))
  {
    assert changes[0] in changes;
    var log1 := AfterHanding(log, changes[0], Publisher.OutcomeAt(outcomes).marked);
    var rest := Publisher.RunPass(log1, changes[1..], Publisher.Later(outcomes));
    HandingKeepsRest(log, changes, Publisher.OutcomeAt(outcomes).marked);
    HandedScanned(log1, changes[1..], Publisher.Later(outcomes));
    SameTaken(log, log1, rest.handed, LaterSent(sent));
    assert Publisher.RunPass(log, changes, outcomes).handed == [changes[0]] + rest.handed;
  }

  /**
   A whole publish is a run of the protocol. It leaves the queue of the log that it leaves, and the
   streams have grown by the changes they took, in the order of the log.
   */
  lemma {:induction false} PassIsProtocolRun(cfg: Config, c: State, n: nat, log: Log.Log,
                                             changes: seq<Log.GlobalRow>, outcomes: seq<Log.Outcome>, sent: seq<bool>)
      returns (steps: seq<Step>, c': State)
    requires Reflects(cfg, c, n, log) && Scanned(log, changes)
    requires cfg.lossyPublish || forall i :: 0 <= i < |sent| ==> sent[i]
    ensures var pass := Publisher.RunPass(log, changes, outcomes);
            IsRun(cfg, c, steps, c') && !pass.panicked && Reflects(cfg, c', n, pass.log)
            && c'.logs == Spread(cfg, n, c.logs, Taken(log, pass.handed, sent))
    decreases |changes|
  {
    var outcome := Publisher.OutcomeAt(outcomes);
    if |changes| == 0 || !outcome.Handed? {
      steps, c' := [], c;
      assert |changes| > 0 ==> changes[0] in changes;
    } else {
      assert changes[0] in changes;
      HandingKeepsRest(log, changes, outcome.marked);
      TakenFirst(log, changes, outcomes, sent);
      var log1 := AfterHanding(log, changes[0], outcome.marked);
      var first, c1 := HandOver(cfg, c, n, log, changes[0], outcome.marked, SentAt(sent));
      var later;
      later, c' := PassIsProtocolRun(cfg, c1, n, log1, changes[1..], Publisher.Later(outcomes), LaterSent(sent));
      steps := first + later;
      RunAppend(cfg, c, first, c1, later, c');
      var rest := Publisher.RunPass(log1, changes[1..], Publisher.Later(outcomes));
      SpreadAppend(cfg, n, c.logs, if SentAt(sent) then [Log.EventOf(log, changes[0])] else [],
                   Taken(log1, rest.handed, LaterSent(sent)));
    }
  }
}
