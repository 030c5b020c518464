/**
 The listener loop is the protocol's listener.

 Whatever reaches a running loop, interleaved in any way with the rest of the cluster, corresponds
 to protocol steps, and the loop ends where those steps lead.
 */
module ListenerRun {
  import opened Rows
  import opened Cbor
  import opened SequenceFile
  import opened Cluster
  import opened Runs
  import L = Listener
  import SchemaGate
  import SchemaCache

  /** The node is up and its listener for shard `s` is between messages, as the loop has it. */
  ghost predicate Running(node: Node, s: nat, loop: L.Loop, name: Name) {
    && s < |node.listeners| == |node.seqMap| && node.up
    && node.db.tables == loop.tables && node.seqMap[s] == Saved(loop.stored.seqs, name)
    && node.listeners[s].saved == loop.savedSeq && node.listeners[s].inflight == 0
  }

  /** The process has ended and left its database and its saved sequence behind. */
  ghost predicate LeftBehind(node: Node, s: nat, loop: L.Loop, name: Name) {
    && s < |node.seqMap| && !node.up
    && node.db.tables == loop.tables && node.seqMap[s] == Saved(loop.stored.seqs, name)
  }

  ghost predicate Matches(cfg: Config, c: State, n: nat, s: nat, loop: L.Loop, name: Name) {
    Wf(cfg, c) && n < cfg.nodes && s < cfg.shards && Faithful(loop.stored) && Running(c.nodes[n], s, loop, name)
  }

  /**
   What happens next, in the protocol's terms: a message is delivered, this node publishes change
   `i` to the shard, something happens elsewhere, nothing happens, or the connection breaks.
   */
  datatype Arrival =
    | Delivery(q: uint64, cancelled: bool, acked: bool, order: seq<Name>)
    | OwnPublish(i: nat, marked: bool, order: seq<Name>)
    | Elsewhere(step: Step, stored: Stored)
    | Nothing
    | Disconnect

  /** A step that leaves the listener of shard `s` on node `n` running and its saved sequence alone. */
  ghost predicate Bystander(cfg: Config, c: State, step: Step, n: nat, s: nat)
    requires Wf(cfg, c) && Enabled(cfg, c, step)
  {
    match step
    case Deliver(m, t, _) => m != n || t != s
    case SaveSeq(m, t) => m != n || t != s
    case Crash(m) => m != n
    case Publish(m, i, _, stored) =>
      m != n || (stored == cfg.snapshots
                 && (!stored || cfg.route(EventKey(cfg.schema, c.nodes[m].queue[i])) != s))
    case _ => true
  }

  /** The arrival is possible in the protocol, and every save it causes is possible. */
  ghost predicate CanArrive(cfg: Config, c: State, n: nat, s: nat, loop: L.Loop, name: Name, a: Arrival) {
    Matches(cfg, c, n, s, loop, name)
    && match a
       case Delivery(q, _, _, order) =>
         Enabled(cfg, c, Deliver(n, s, q)) && Possible(loop.stored, Save(name, q, order))
       case OwnPublish(i, marked, order) =>
         Enabled(cfg, c, Publish(n, i, marked, true)) && |c.logs[s]| + 1 < LIMIT64
         && cfg.route(EventKey(cfg.schema, c.nodes[n].queue[i])) == s
         && Possible(loop.stored, Save(name, |c.logs[s]| + 1, order))
       case Elsewhere(step, stored) =>
         Enabled(cfg, c, step) && Bystander(cfg, c, step, n, s)
         && Faithful(stored) && Saved(stored.seqs, name) == Saved(loop.stored.seqs, name)
       case Nothing => true
       case Disconnect => true
  }

  /** The arrival as the loop meets it. */
  ghost function Heard(cfg: Config, c: State, n: nat, s: nat, loop: L.Loop, name: Name, a: Arrival): L.Incoming
    requires CanArrive(cfg, c, n, s, loop, name, a)
  {
    match a
    case Delivery(q, cancelled, acked, order) =>
      L.Message(q, c.logs[s][q - 1].event, false, cancelled, acked, order)
    case OwnPublish(_, _, order) => L.PublishSaved(|c.logs[s]| + 1, order)
    case Elsewhere(step, stored) => L.OtherWork(Do(cfg, c, step).nodes[n].db.tables, stored)
    case Nothing => L.Timeout
    case Disconnect => L.Broken
  }

  /** The protocol steps of one iteration; an iteration that ends the loop ends the process. */
  function StepsOf(n: nat, s: nat, savedSeq: nat, a: Arrival): seq<Step> {
    match a
    case Delivery(q, cancelled, acked, _) =>
      var take := Deliver(n, s, q);
      if q <= savedSeq then [take]
      else if cancelled then [take, Crash(n)]
      else if !acked then [take, SaveSeq(n, s), Crash(n)]
      else [take, SaveSeq(n, s)]
    case OwnPublish(i, marked, _) => [Publish(n, i, marked, true)]
    case Elsewhere(step, _) => [step]
    case Nothing => []
    case Disconnect => [Crash(n)]
  }

  /** The gate never asks for a message off a shard log again: none of them carries a hash. */
  lemma LogMessagesPassGate(cfg: Config, c: State, s: nat, q: nat,
                            pause: SchemaGate.Pause, cache: SchemaCache.Cached, i: SchemaGate.Input)
    requires Wf(cfg, c) && s < cfg.shards && 1 <= q <= |c.logs[s]|
    requires i.hash == c.logs[s][q - 1].event.schemaHash
    ensures SchemaGate.Decide(pause, cache, i).verdict == SchemaGate.Apply
  {
  }

  // ---------- one iteration ----------

  /** A node after an iteration. */
  ghost predicate NodeReflects(node: Node, s: nat, r: (L.Loop, L.Exit), name: Name) {
    if r.1 == L.Running then Running(node, s, r.0, name) else LeftBehind(node, s, r.0, name)
  }

  /** Where an iteration leaves the protocol. */
  ghost predicate Reflects(cfg: Config, c: State, n: nat, s: nat, r: (L.Loop, L.Exit), name: Name) {
    Wf(cfg, c) && n < cfg.nodes && s < cfg.shards && Faithful(r.0.stored) && NodeReflects(c.nodes[n], s, r, name)
  }

  ghost function Iterated(cfg: Config, c: State, n: nat, s: nat, loop: L.Loop, name: Name, a: Arrival): (L.Loop, L.Exit)
    requires CanArrive(cfg, c, n, s, loop, name, a)
  {
    L.Iterate(cfg.schema, name, loop, Heard(cfg, c, n, s, loop, name, a))
  }

  lemma StepTo(cfg: Config, c: State, step: Step) returns (c': State)
    requires Wf(cfg, c) && Enabled(cfg, c, step)
    ensures c' == Do(cfg, c, step) && Wf(cfg, c') && IsRun(cfg, c, [step], c')
  {
    StepKeepsWf(cfg, c, step);
    RunOne(cfg, c, step);
    c' := Do(cfg, c, step);
  }

  /** The process ends. */
  lemma EndsTo(cfg: Config, c0: State, steps: seq<Step>, c: State, n: nat) returns (c': State)
    requires IsRun(cfg, c0, steps, c) && Wf(cfg, c) && n < cfg.nodes && c.nodes[n].up
    ensures IsRun(cfg, c0, steps + [Crash(n)], c') && Wf(cfg, c')
    ensures n < |c'.nodes| && c'.nodes[n] == c.nodes[n].(up := false)
  {
    c' := StepTo(cfg, c, Crash(n));
    RunAppend(cfg, c0, steps, c, [Crash(n)], c');
  }

  /** A delivery, and what the node is afterwards. */
  lemma TakesTo(cfg: Config, c: State, n: nat, s: nat, q: nat) returns (c': State)
    requires Wf(cfg, c) && Enabled(cfg, c, Deliver(n, s, q))
    ensures IsRun(cfg, c, [Deliver(n, s, q)], c') && Wf(cfg, c') && Applicable(cfg.schema, c.logs[s][q - 1].event)
    ensures n < |c'.nodes| && c'.nodes[n] == AfterDeliver(cfg, c.nodes[n], s, q, c.logs[s][q - 1].event)
  {
    assert WfLog(cfg, s, c.logs[s]);
    c' := StepTo(cfg, c, Deliver(n, s, q));
  }

  /** A save after it. */
  lemma SavesTo(cfg: Config, c0: State, steps: seq<Step>, c: State, n: nat, s: nat) returns (c': State)
    requires IsRun(cfg, c0, steps, c) && Wf(cfg, c) && Enabled(cfg, c, SaveSeq(n, s))
    ensures IsRun(cfg, c0, steps + [SaveSeq(n, s)], c') && Wf(cfg, c')
    ensures n < |c'.nodes| && c'.nodes[n] == AfterSave(c.nodes[n], s)
  {
    c' := StepTo(cfg, c, SaveSeq(n, s));
    RunAppend(cfg, c0, steps, c, [SaveSeq(n, s)], c');
  }

  /** What an iteration over a fresh message does to the loop. */
  lemma AppliedMessage(cfg: Config, name: Name, loop: L.Loop, m: L.Incoming)
    requires m.Message? && !m.retry && m.q > loop.savedSeq && Applicable(cfg.schema, m.event)
    requires Faithful(loop.stored) && L.CanTake(loop, name, m)
    ensures Replicate(cfg.schema, loop.tables, m.event).Success?
    ensures var r := L.Iterate(cfg.schema, name, loop, m);
            && r.0.tables == Replicate(cfg.schema, loop.tables, m.event).value && Faithful(r.0.stored)
            && r.1 == (if m.cancelled then L.Cancelled else if m.acked then L.Running else L.Failed)
            && Saved(r.0.stored.seqs, name)
               == (if m.cancelled then Saved(loop.stored.seqs, name) else Max(Saved(loop.stored.seqs, name), m.q))
            && (!m.cancelled ==> r.0.savedSeq == Saved(r.0.stored.seqs, name))
  {
    ReplicateSucceeds(cfg.schema, loop.tables, m.event);
    NextSaved(loop.stored, Save(name, m.q, m.order), name);
    NextKeepsFaithful(loop.stored, Save(name, m.q, m.order));
  }

  /** The node after a fresh message. */
  function AppliedNode(cfg: Config, node: Node, s: nat, m: L.Incoming): Node
    requires m.Message? && Applicable(cfg.schema, m.event)
    requires s < |node.listeners| == |node.seqMap| == |node.db.shown| == |node.db.reach|
  {
    var taken := AfterDeliver(cfg, node, s, m.q, m.event);
    (if m.cancelled then taken else AfterSave(taken, s)).(up := !m.cancelled && m.acked)
  }

  /** The protocol's side of an applied message. */
  lemma AppliedSteps(cfg: Config, c: State, n: nat, s: nat, m: L.Incoming) returns (steps: seq<Step>, c': State)
    requires Wf(cfg, c) && m.Message? && Enabled(cfg, c, Deliver(n, s, m.q)) && m.q > c.nodes[n].listeners[s].saved
    requires m.event == c.logs[s][m.q - 1].event
    ensures IsRun(cfg, c, steps, c') && Wf(cfg, c') && Applicable(cfg.schema, m.event)
    ensures steps == if m.cancelled then [Deliver(n, s, m.q), Crash(n)]
                     else if !m.acked then [Deliver(n, s, m.q), SaveSeq(n, s), Crash(n)]
                     else [Deliver(n, s, m.q), SaveSeq(n, s)]
    ensures n < |c'.nodes| && c'.nodes[n] == AppliedNode(cfg, c.nodes[n], s, m)
  {
    var take := [Deliver(n, s, m.q)];
    var c1 := TakesTo(cfg, c, n, s, m.q);
    if m.cancelled {
      steps := take + [Crash(n)];
      c' := EndsTo(cfg, c, take, c1, n);
    } else {
      steps := take + [SaveSeq(n, s)];
      c' := SavesTo(cfg, c, take, c1, n, s);
      if !m.acked {
        c' := EndsTo(cfg, c, steps, c', n);
        steps := steps + [Crash(n)];
      }
    }
  }

  /** The node after an applied message is the loop after it. */
  lemma AppliedReflects(cfg: Config, node: Node, s: nat, loop: L.Loop, name: Name, m: L.Incoming)
    requires m.Message? && !m.retry && m.q > loop.savedSeq && Applicable(cfg.schema, m.event)
    requires Faithful(loop.stored) && L.CanTake(loop, name, m)
    requires Running(node, s, loop, name) && s < |node.db.shown| == |node.db.reach| == |node.listeners|
    ensures var r := L.Iterate(cfg.schema, name, loop, m);
            Faithful(r.0.stored) && NodeReflects(AppliedNode(cfg, node, s, m), s, r, name)
  {
    AppliedMessage(cfg, name, loop, m);
  }

  lemma MessageIsRun(cfg: Config, c: State, n: nat, s: nat, loop: L.Loop, name: Name, m: L.Incoming)
      returns (steps: seq<Step>, c': State)
    requires Wf(cfg, c) && m.Message? && !m.retry && Enabled(cfg, c, Deliver(n, s, m.q)) && m.q > loop.savedSeq
    requires m.event == c.logs[s][m.q - 1].event && Running(c.nodes[n], s, loop, name)
    requires Faithful(loop.stored) && L.CanTake(loop, name, m)
    ensures IsRun(cfg, c, steps, c') && Reflects(cfg, c', n, s, L.Iterate(cfg.schema, name, loop, m), name)
    ensures steps == if m.cancelled then [Deliver(n, s, m.q), Crash(n)]
                     else if !m.acked then [Deliver(n, s, m.q), SaveSeq(n, s), Crash(n)]
                     else [Deliver(n, s, m.q), SaveSeq(n, s)]
  {
    steps, c' := AppliedSteps(cfg, c, n, s, m);
    AppliedReflects(cfg, c.nodes[n], s, loop, name, m);
  }

  lemma PassedOverIsRun(cfg: Config, c: State, n: nat, s: nat, loop: L.Loop, name: Name, a: Arrival) returns (c': State)
    requires CanArrive(cfg, c, n, s, loop, name, a) && a.Delivery? && a.q <= loop.savedSeq
    ensures IsRun(cfg, c, StepsOf(n, s, loop.savedSeq, a), c')
    ensures Reflects(cfg, c', n, s, Iterated(cfg, c, n, s, loop, name, a), name)
  {
    c' := TakesTo(cfg, c, n, s, a.q);
  }

  lemma AppliedIsRun(cfg: Config, c: State, n: nat, s: nat, loop: L.Loop, name: Name, a: Arrival) returns (c': State)
    requires CanArrive(cfg, c, n, s, loop, name, a) && a.Delivery? && a.q > loop.savedSeq
    ensures IsRun(cfg, c, StepsOf(n, s, loop.savedSeq, a), c')
    ensures Reflects(cfg, c', n, s, Iterated(cfg, c, n, s, loop, name, a), name)
  {
    var steps;
    steps, c' := MessageIsRun(cfg, c, n, s, loop, name, Heard(cfg, c, n, s, loop, name, a));
  }

  lemma PublishIsRun(cfg: Config, c: State, n: nat, s: nat, loop: L.Loop, name: Name, a: Arrival) returns (c': State)
    requires CanArrive(cfg, c, n, s, loop, name, a) && a.OwnPublish?
    ensures IsRun(cfg, c, StepsOf(n, s, loop.savedSeq, a), c')
    ensures Reflects(cfg, c', n, s, Iterated(cfg, c, n, s, loop, name, a), name)
  {
    c' := StepTo(cfg, c, Publish(n, a.i, a.marked, true));
    NextSaved(loop.stored, Save(name, |c.logs[s]| + 1, a.order), name);
    NextKeepsFaithful(loop.stored, Save(name, |c.logs[s]| + 1, a.order));
  }

  lemma BystanderKeeps(cfg: Config, c: State, step: Step, n: nat, s: nat)
    requires Wf(cfg, c) && Enabled(cfg, c, step) && n < cfg.nodes && s < cfg.shards && c.nodes[n].up
    requires Bystander(cfg, c, step, n, s)
    ensures var c' := Do(cfg, c, step);
            && Wf(cfg, c') && c'.nodes[n].up && c'.nodes[n].listeners[s] == c.nodes[n].listeners[s]
            && c'.nodes[n].seqMap[s] == c.nodes[n].seqMap[s]
  {
    StepKeepsWf(cfg, c, step);
  }

  lemma BystanderIsRun(cfg: Config, c: State, n: nat, s: nat, loop: L.Loop, name: Name, a: Arrival) returns (c': State)
    requires CanArrive(cfg, c, n, s, loop, name, a) && a.Elsewhere?
    ensures IsRun(cfg, c, StepsOf(n, s, loop.savedSeq, a), c')
    ensures Reflects(cfg, c', n, s, Iterated(cfg, c, n, s, loop, name, a), name)
  {
    BystanderKeeps(cfg, c, a.step, n, s);
    c' := StepTo(cfg, c, a.step);
  }

  /** Every iteration is a run of the protocol that ends where the iteration does. */
  lemma IterationIsRun(cfg: Config, c: State, n: nat, s: nat, loop: L.Loop, name: Name, a: Arrival) returns (c': State)
    requires CanArrive(cfg, c, n, s, loop, name, a)
    ensures IsRun(cfg, c, StepsOf(n, s, loop.savedSeq, a), c')
    ensures Reflects(cfg, c', n, s, Iterated(cfg, c, n, s, loop, name, a), name)
  {
    match a
    case Delivery(q, _, _, _) =>
      if q <= loop.savedSeq {
        c' := PassedOverIsRun(cfg, c, n, s, loop, name, a);
      } else {
        c' := AppliedIsRun(cfg, c, n, s, loop, name, a);
      }
    case OwnPublish(_, _, _) => c' := PublishIsRun(cfg, c, n, s, loop, name, a);
    case Elsewhere(_, _) => c' := BystanderIsRun(cfg, c, n, s, loop, name, a);
    case Nothing => c' := c;
    case Disconnect => c' := StepTo(cfg, c, Crash(n));
  }

  // ---------- the whole loop ----------

  /** The protocol after one iteration. */
  ghost function After(cfg: Config, c: State, n: nat, s: nat, loop: L.Loop, a: Arrival): State {
    Target(Cluster.Next(cfg), c, StepsOf(n, s, loop.savedSeq, a))
  }

  /** Each arrival is possible when its turn comes, if the loop is still running then. */
  ghost predicate CanArriveAll(cfg: Config, c: State, n: nat, s: nat, loop: L.Loop, name: Name, plan: seq<Arrival>)
    decreases |plan|
  {
    |plan| > 0 ==>
      CanArrive(cfg, c, n, s, loop, name, plan[0])
      && (Iterated(cfg, c, n, s, loop, name, plan[0]).1 == L.Running ==>
            CanArriveAll(cfg, After(cfg, c, n, s, loop, plan[0]), n, s,
                         Iterated(cfg, c, n, s, loop, name, plan[0]).0, name, plan[1..]))
  }

  /** What the loop meets, and the protocol's steps, up to the end of the plan or of the loop. */
  ghost function Played(cfg: Config, c: State, n: nat, s: nat, loop: L.Loop, name: Name, plan: seq<Arrival>)
      : (seq<L.Incoming>, seq<Step>)
    requires CanArriveAll(cfg, c, n, s, loop, name, plan)
    decreases |plan|
  {
    if |plan| == 0 then ([], [])
    else
      var m, steps := Heard(cfg, c, n, s, loop, name, plan[0]), StepsOf(n, s, loop.savedSeq, plan[0]);
      var r := Iterated(cfg, c, n, s, loop, name, plan[0]);
      if r.1 != L.Running then ([m], steps)
      else
        var rest := Played(cfg, After(cfg, c, n, s, loop, plan[0]), n, s, r.0, name, plan[1..]);
        ([m] + rest.0, steps + rest.1)
  }

  /** The first arrival of a plan, and where it leaves the protocol. */
  lemma FirstArrival(cfg: Config, c: State, n: nat, s: nat, loop: L.Loop, name: Name, a: Arrival)
    requires CanArrive(cfg, c, n, s, loop, name, a)
    ensures IsRun(cfg, c, StepsOf(n, s, loop.savedSeq, a), After(cfg, c, n, s, loop, a))
    ensures Reflects(cfg, After(cfg, c, n, s, loop, a), n, s, Iterated(cfg, c, n, s, loop, name, a), name)
    ensures L.CanTake(loop, name, Heard(cfg, c, n, s, loop, name, a))
  {
    var c' := IterationIsRun(cfg, c, n, s, loop, name, a);
    PathTarget(Cluster.Next(cfg), c, StepsOf(n, s, loop.savedSeq, a), c');
  }

  /**
   The whole loop is a run of the protocol: over deliveries, redeliveries, publishes of the same
   node, and anything else the cluster does in between, the loop's steps are protocol steps, and
   the loop ends with the database, the sequences and the position that those steps lead to. An
   exit by cancellation, by a failed acknowledgement or by a broken connection is a crash.
   */
  lemma {:induction false} LoopIsRun(cfg: Config, c: State, n: nat, s: nat, loop: L.Loop, name: Name,
                                     plan: seq<Arrival>) returns (c': State)
    requires Matches(cfg, c, n, s, loop, name) && CanArriveAll(cfg, c, n, s, loop, name, plan)
    ensures var (ms, steps) := Played(cfg, c, n, s, loop, name, plan);
            && IsRun(cfg, c, steps, c') && L.CanTakeAll(cfg.schema, name, loop, ms)
            && Reflects(cfg, c', n, s, L.IterateAll(cfg.schema, name, loop, ms), name)
    decreases |plan|
  {
    if |plan| == 0 {
      c' := c;
    } else {
      var a := plan[0];
      FirstArrival(cfg, c, n, s, loop, name, a);
      var m, r := Heard(cfg, c, n, s, loop, name, a), Iterated(cfg, c, n, s, loop, name, a);
      var c1 := After(cfg, c, n, s, loop, a);
      if r.1 != L.Running {
        c' := c1;
      } else {
        c' := LoopIsRun(cfg, c1, n, s, r.0, name, plan[1..]);
        var (ms, steps) := Played(cfg, c1, n, s, r.0, name, plan[1..]);
        RunAppend(cfg, c, StepsOf(n, s, loop.savedSeq, a), c1, steps, c');
      }
    }
  }

  /** A process that starts finds the loop where the protocol's restarted listener is. */
  lemma StartMatches(cfg: Config, c: State, n: nat, s: nat, loop: L.Loop, name: Name)
    requires Wf(cfg, c) && Enabled(cfg, c, Step.Restart(n)) && s < cfg.shards && Faithful(loop.stored)
    requires c.nodes[n].db.tables == loop.tables && c.nodes[n].seqMap[s] == Saved(loop.stored.seqs, name)
    requires loop.savedSeq == Saved(loop.stored.seqs, name)
    ensures Matches(cfg, Do(cfg, c, Step.Restart(n)), n, s, loop, name)
  {
    StepKeepsWf(cfg, c, Step.Restart(n));
  }
}
