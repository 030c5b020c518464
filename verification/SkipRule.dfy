/**
 Which messages a listener passes over, in every run and under every switch.

 With snapshots enabled the saved sequence also moves when the node publishes, so a listener may
 pass over messages it never applied. The rule below says exactly which reasons there can be, and
 that within one process lifetime no message is applied twice.
 */
module SkipRule {
  import opened Rows
  import opened Cluster

  /**
   Sequence `q` was saved before this listener started, was applied by it, is covered by a
   sequence this process saved when publishing, or was discarded by the stream.
   */
  ghost predicate Explained(l: Listener, first: nat, q: nat) {
    q <= l.loaded || q in l.applied || q <= l.published || q < first
  }

  ghost predicate Increasing(xs: seq<nat>) {
    forall i, j :: 0 <= i < j < |xs| ==> xs[i] < xs[j]
  }

  ghost predicate ListenerInv(snapshots: bool, l: Listener, stored: nat, first: nat) {
    && (forall q :: 1 <= q <= l.cursor ==> Explained(l, first, q))
    && (forall q :: 1 <= q <= stored ==> Explained(l, first, q))
    && l.loaded <= l.saved <= stored
    && l.inflight <= l.cursor
    && (l.inflight != 0 ==> l.saved < l.inflight)
    && (forall a :: a in l.applied ==> l.loaded < a && (a <= l.saved || a == l.inflight))
    && Increasing(l.applied)
    && (!snapshots ==> l.published == 0)
  }

  ghost predicate Inv(cfg: Config, c: State) {
    Wf(cfg, c)
    && forall n, s :: 0 <= n < cfg.nodes && 0 <= s < cfg.shards && c.nodes[n].up ==>
         ListenerInv(cfg.snapshots, c.nodes[n].listeners[s], c.nodes[n].seqMap[s], c.first[s])
  }

  /** Explanations last: history only grows. */
  lemma StillExplained(l: Listener, first: nat, l': Listener, first': nat, upTo: nat)
    requires l'.loaded == l.loaded && l.published <= l'.published && first <= first'
    requires forall a :: a in l.applied ==> a in l'.applied
    requires forall q :: 1 <= q <= upTo ==> Explained(l, first, q)
    ensures forall q :: 1 <= q <= upTo ==> Explained(l', first', q)
  {
    forall q | 1 <= q <= upTo ensures Explained(l', first', q) {
      assert Explained(l, first, q);
    }
  }

  lemma DeliverKeeps(snapshots: bool, l: Listener, stored: nat, first: nat, q: nat)
    requires ListenerInv(snapshots, l, stored, first) && l.inflight == 0 && 1 <= q
    requires q <= l.cursor || q == NextSeq(l, first)
    ensures var l' := l.(cursor := Max(l.cursor, q));
            var taken := if q <= l.saved then l' else l'.(inflight := q, applied := l.applied + [q]);
            ListenerInv(snapshots, taken, stored, first)
  {
    var moved := l.(cursor := Max(l.cursor, q));
    var l' := if q <= l.saved then moved else moved.(inflight := q, applied := l.applied + [q]);
    StillExplained(l, first, l', first, l.cursor);
    StillExplained(l, first, l', first, stored);
    assert q > l.saved ==> l'.applied[|l.applied|] == q;
    assert Explained(l', first, q);
    forall i, j | 0 <= i < j < |l'.applied| ensures l'.applied[i] < l'.applied[j] {
      assert i < |l.applied| ==> l.applied[i] in l.applied;
    }
  }

  lemma SaveKeeps(snapshots: bool, l: Listener, stored: nat, first: nat)
    requires ListenerInv(snapshots, l, stored, first) && l.inflight != 0
    ensures var stored' := Max(stored, l.inflight);
            ListenerInv(snapshots, l.(saved := stored', inflight := 0), stored', first)
  {
    var stored' := Max(stored, l.inflight);
    var l' := l.(saved := stored', inflight := 0);
    StillExplained(l, first, l', first, l.cursor);
    StillExplained(l, first, l', first, stored);
  }

  lemma PublishKeeps(snapshots: bool, l: Listener, stored: nat, first: nat, seqNo: nat)
    requires ListenerInv(snapshots, l, stored, first) && snapshots
    ensures ListenerInv(snapshots, l.(published := Max(l.published, seqNo)), Max(stored, seqNo), first)
  {
    var l' := l.(published := Max(l.published, seqNo));
    StillExplained(l, first, l', first, l.cursor);
    StillExplained(l, first, l', first, stored);
  }

  lemma DiscardKeeps(snapshots: bool, l: Listener, stored: nat, first: nat)
    requires ListenerInv(snapshots, l, stored, first)
    ensures ListenerInv(snapshots, l, stored, first + 1)
  {
    StillExplained(l, first, l, first + 1, l.cursor);
    StillExplained(l, first, l, first + 1, stored);
  }

  ghost predicate ListenerOk(cfg: Config, c: State, n: nat, s: nat) {
    n < |c.nodes| && s < |c.nodes[n].listeners| && s < |c.nodes[n].seqMap| && s < |c.first|
    && ListenerInv(cfg.snapshots, c.nodes[n].listeners[s], c.nodes[n].seqMap[s], c.first[s])
  }

  /** A publish that saves moves the saved sequence and its record, and no other does. */
  lemma PublishMoves(cfg: Config, c: State, step: Step, n: nat, s: nat)
    requires Wf(cfg, c) && step.Publish? && Enabled(cfg, c, step) && n < cfg.nodes && s < cfg.shards
    ensures var c' := Do(cfg, c, step);
            var l, saved, seqNo := c.nodes[n].listeners[s], c.nodes[n].seqMap[s], |c.logs[s]| + 1;
            var saves := step.stored && step.n == n
                         && cfg.route(EventKey(cfg.schema, c.nodes[n].queue[step.i])) == s;
            && n < |c'.nodes| && s < |c'.nodes[n].listeners| && s < |c'.nodes[n].seqMap| && c'.first == c.first
            && c'.nodes[n].listeners[s] == (if saves then l.(published := Max(l.published, seqNo)) else l)
            && c'.nodes[n].seqMap[s] == (if saves then Max(saved, seqNo) else saved)
  {
  }

  lemma PublishStep(cfg: Config, c: State, step: Step, n: nat, s: nat)
    requires Inv(cfg, c) && step.Publish? && Enabled(cfg, c, step) && n < cfg.nodes && s < cfg.shards && c.nodes[n].up
    ensures ListenerOk(cfg, Do(cfg, c, step), n, s)
  {
    PublishMoves(cfg, c, step, n, s);
    var t := cfg.route(EventKey(cfg.schema, c.nodes[step.n].queue[step.i]));
    if step.n == n && t == s && step.stored {
      PublishKeeps(cfg.snapshots, c.nodes[n].listeners[s], c.nodes[n].seqMap[s], c.first[s], |c.logs[s]| + 1);
    }
  }

  lemma DeliverStep(cfg: Config, c: State, step: Step, n: nat, s: nat)
    requires Inv(cfg, c) && step.Deliver? && Enabled(cfg, c, step) && n < cfg.nodes && s < cfg.shards && c.nodes[n].up
    ensures ListenerOk(cfg, Do(cfg, c, step), n, s)
  {
    if step.n == n && step.s == s {
      DeliverKeeps(cfg.snapshots, c.nodes[n].listeners[s], c.nodes[n].seqMap[s], c.first[s], step.q);
    }
  }

  lemma SaveStep(cfg: Config, c: State, step: Step, n: nat, s: nat)
    requires Inv(cfg, c) && step.SaveSeq? && Enabled(cfg, c, step) && n < cfg.nodes && s < cfg.shards && c.nodes[n].up
    ensures ListenerOk(cfg, Do(cfg, c, step), n, s)
  {
    if step.n == n && step.s == s {
      SaveKeeps(cfg.snapshots, c.nodes[n].listeners[s], c.nodes[n].seqMap[s], c.first[s]);
    }
  }

  lemma DiscardStep(cfg: Config, c: State, step: Step, n: nat, s: nat)
    requires Inv(cfg, c) && step.Discard? && Enabled(cfg, c, step) && n < cfg.nodes && s < cfg.shards && c.nodes[n].up
    ensures ListenerOk(cfg, Do(cfg, c, step), n, s)
  {
    if step.s == s {
      DiscardKeeps(cfg.snapshots, c.nodes[n].listeners[s], c.nodes[n].seqMap[s], c.first[s]);
    }
  }

  /** A listener that starts has applied nothing and explains what its node has saved. */
  lemma OtherStep(cfg: Config, c: State, step: Step, n: nat, s: nat)
    requires Inv(cfg, c) && Enabled(cfg, c, step) && n < cfg.nodes && s < cfg.shards
    requires step.LocalWrite? || step.PublishLost? || step.Crash? || step.Restart?
          || step.TakeSnapshot? || step.Restore?
    requires Do(cfg, c, step).nodes[n].up
    ensures ListenerOk(cfg, Do(cfg, c, step), n, s)
  {
  }

  /** One listener across one step. */
  lemma StepKeepsListener(cfg: Config, c: State, step: Step, n: nat, s: nat)
    requires Inv(cfg, c) && Enabled(cfg, c, step) && n < cfg.nodes && s < cfg.shards
    requires Do(cfg, c, step).nodes[n].up
    ensures ListenerOk(cfg, Do(cfg, c, step), n, s)
  {
    match step
    case Publish(_, _, _, _) => PublishStep(cfg, c, step, n, s);
    case Deliver(_, _, _) => DeliverStep(cfg, c, step, n, s);
    case SaveSeq(_, _) => SaveStep(cfg, c, step, n, s);
    case Discard(_) => DiscardStep(cfg, c, step, n, s);
    case _ => OtherStep(cfg, c, step, n, s);
  }

  lemma {:induction false} RunKeepsInv(cfg: Config, c0: State, steps: seq<Step>, c: State)
    requires Inv(cfg, c0) && IsRun(cfg, c0, steps, c)
    ensures Inv(cfg, c)
    decreases |steps|
  {
    if |steps| == 0 {
    } else {
      RunHead(cfg, c0, steps, c);
      StepKeepsWf(cfg, c0, steps[0]);
      var c1 := Do(cfg, c0, steps[0]);
      forall n, s | 0 <= n < cfg.nodes && 0 <= s < cfg.shards && c1.nodes[n].up
        ensures ListenerInv(cfg.snapshots, c1.nodes[n].listeners[s], c1.nodes[n].seqMap[s], c1.first[s])
      {
        StepKeepsListener(cfg, c0, steps[0], n, s);
      }
      RunKeepsInv(cfg, c1, steps[1..], c);
    }
  }

  /**
   The skip rule: in every run, a message that is delivered but not applied was saved before the
   listener started, or was already applied by this listener, or lies at or below a sequence that
   this node's own publishing saved. With snapshots disabled the last case does not exist.
   */
  lemma SkippedMessages(cfg: Config, init: Tables, steps: seq<Step>, c: State, n: nat, s: nat, q: nat)
    requires WfConfig(cfg) && IsRun(cfg, Start(cfg, init), steps, c)
    requires Wf(cfg, c) && Enabled(cfg, c, Deliver(n, s, q))
    ensures q <= c.nodes[n].listeners[s].saved ==>
              || q <= c.nodes[n].listeners[s].loaded
              || q in c.nodes[n].listeners[s].applied
              || (cfg.snapshots && q <= c.nodes[n].listeners[s].published)
  {
    StartWf(cfg, init);
    RunKeepsInv(cfg, Start(cfg, init), steps, c);
    var l := c.nodes[n].listeners[s];
    assert ListenerInv(cfg.snapshots, l, c.nodes[n].seqMap[s], c.first[s]);
    if 1 <= q <= l.saved {
      assert Explained(l, c.first[s], q);
    }
  }

  /**
   Within one process lifetime a listener applies each sequence at most once, in strictly
   increasing order and only beyond the sequence it loaded at start, despite redeliveries.
   */
  lemma AppliedAtMostOnce(cfg: Config, init: Tables, steps: seq<Step>, c: State, n: nat, s: nat)
    requires WfConfig(cfg) && IsRun(cfg, Start(cfg, init), steps, c)
    requires Wf(cfg, c) && n < cfg.nodes && s < cfg.shards && c.nodes[n].up
    ensures Increasing(c.nodes[n].listeners[s].applied)
    ensures forall a :: a in c.nodes[n].listeners[s].applied ==> a > c.nodes[n].listeners[s].loaded
  {
    StartWf(cfg, init);
    RunKeepsInv(cfg, Start(cfg, init), steps, c);
    assert ListenerInv(cfg.snapshots, c.nodes[n].listeners[s], c.nodes[n].seqMap[s], c.first[s]);
  }
}
