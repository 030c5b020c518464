/**
 Progress under every schedule.

 When the application is quiet, only so many publishes, first deliveries and saves are left. Every
 run uses them up one by one, whatever the order and however often messages are redelivered in
 between, and as long as a node is not settled one of them can be taken.
 */
module Workload {
  import opened Rows
  import opened Wrappers
  import opened Runs
  import opened Cluster
  import opened Coverage
  import opened Convergence
  import opened Progress

  // ---------- sums ----------

  function Sum(xs: seq<nat>): nat {
    if |xs| == 0 then 0 else Sum(xs[..|xs| - 1]) + xs[|xs| - 1]
  }

  /** `n` times `k`. */
  function Times(n: nat, k: nat): nat {
    if n == 0 then 0 else Times(n - 1, k) + k
  }

  lemma {:induction false} SumGrows(xs: seq<nat>, ys: seq<nat>, d: nat)
    requires |xs| == |ys| && forall i :: 0 <= i < |xs| ==> ys[i] <= xs[i] + d
    ensures Sum(ys) <= Sum(xs) + Times(|xs|, d)
    decreases |xs|
  {
    if |xs| == 0 {
    } else {
      SumGrows(xs[..|xs| - 1], ys[..|ys| - 1], d);
    }
  }

  lemma {:induction false} SumShift(xs: seq<nat>, i: nat, d: nat)
    requires i < |xs|
    ensures Sum(xs[i := xs[i] + d]) == Sum(xs) + d
    decreases |xs|
  {
    var last, ys := |xs| - 1, xs[i := xs[i] + d];
    if i == last {
      assert ys[..last] == xs[..last];
    } else {
      SumShift(xs[..last], i, d);
      assert ys[..last] == xs[..last][i := xs[i] + d];
    }
  }

  /** One entry shrinks by `less`, and every entry grows by at most `more`. */
  lemma SumChange(xs: seq<nat>, ys: seq<nat>, i: nat, less: nat, more: nat)
    requires |xs| == |ys| && i < |xs| && ys[i] + less <= xs[i] + more
    requires forall j :: 0 <= j < |xs| && j != i ==> ys[j] <= xs[j] + more
    ensures Sum(ys) + less <= Sum(xs) + Times(|xs|, more)
  {
    SumShift(ys, i, less);
    SumGrows(xs, ys[i := ys[i] + less], more);
  }

  lemma {:induction false} TimesZero(n: nat)
    ensures Times(n, 0) == 0
  {
    if n == 0 {
    } else {
      TimesZero(n - 1);
    }
  }

  /** One entry shrinks and no other grows. */
  lemma SumShrinks(xs: seq<nat>, ys: seq<nat>, i: nat, less: nat)
    requires |xs| == |ys| && i < |xs| && ys[i] + less <= xs[i]
    requires forall j :: 0 <= j < |xs| && j != i ==> ys[j] <= xs[j]
    ensures Sum(ys) + less <= Sum(xs)
  {
    SumChange(xs, ys, i, less, 0);
    TimesZero(|xs|);
  }

  lemma {:induction false} SumZero(xs: seq<nat>)
    ensures Sum(xs) == 0 <==> forall i :: 0 <= i < |xs| ==> xs[i] == 0
    decreases |xs|
  {
    if |xs| == 0 {
    } else {
      var last := |xs| - 1;
      SumZero(xs[..last]);
      assert forall i :: 0 <= i < last ==> xs[..last][i] == xs[i];
    }
  }

  // ---------- what is left to do ----------

  /** A listener still has to take each remaining message and to save it. */
  function ListenerWork(c: State, n: nat, s: nat): nat
    requires n < |c.nodes| && s < |c.nodes[n].listeners| && s < |c.first| && s < |c.logs|
  {
    2 * Remaining(c, n, s) + if c.nodes[n].listeners[s].inflight != 0 then 1 else 0
  }

  ghost function ListenersWork(cfg: Config, c: State, n: nat): (ws: seq<nat>)
    requires Wf(cfg, c) && n < cfg.nodes
    ensures |ws| == cfg.shards && forall s :: 0 <= s < cfg.shards ==> ws[s] == ListenerWork(c, n, s)
  {
    seq(cfg.shards, s requires 0 <= s < cfg.shards => ListenerWork(c, n, s))
  }

  /** A captured change still has to be published, and then to be taken and saved by every node. */
  ghost function NodeWork(cfg: Config, c: State, n: nat): nat
    requires Wf(cfg, c) && n < cfg.nodes
  {
    Times(|c.nodes[n].queue|, Times(cfg.nodes, 2) + 1) + Sum(ListenersWork(cfg, c, n))
  }

  ghost function NodesWork(cfg: Config, c: State): (ws: seq<nat>)
    requires Wf(cfg, c)
    ensures |ws| == cfg.nodes && forall n :: 0 <= n < cfg.nodes ==> ws[n] == NodeWork(cfg, c, n)
  {
    seq(cfg.nodes, n requires 0 <= n < cfg.nodes => NodeWork(cfg, c, n))
  }

  ghost function Work(cfg: Config, c: State): nat
    requires Wf(cfg, c)
  {
    Sum(NodesWork(cfg, c))
  }

  /** A publish that is marked, a first delivery, or a save. */
  predicate Useful(c: State, step: Step)
    requires step.Deliver? ==> step.n < |c.nodes| && step.s < |c.first| && step.s < |c.nodes[step.n].listeners|
  {
    match step
    case Publish(_, _, marked, _) => marked
    case Deliver(n, s, q) => q == NextSeq(c.nodes[n].listeners[s], c.first[s])
    case SaveSeq(_, _) => true
    case _ => false
  }

  /** What a quiet schedule consists of: useful steps and redeliveries. */
  ghost predicate Scheduled(cfg: Config, c: State, step: Step)
    requires Wf(cfg, c) && Enabled(cfg, c, step)
  {
    Quiet(cfg, c, step) && !step.Restart? && (step.Publish? ==> step.marked)
  }

  lemma PublishWork(cfg: Config, c: State, step: Step)
    requires Wf(cfg, c) && Enabled(cfg, c, step) && step.Publish? && step.marked
    ensures Wf(cfg, Do(cfg, c, step)) && Work(cfg, Do(cfg, c, step)) + 1 <= Work(cfg, c)
  {
    StepKeepsWf(cfg, c, step);
    var c' := Do(cfg, c, step);
    var t := cfg.route(EventKey(cfg.schema, c.nodes[step.n].queue[step.i]));
    var cost := Times(cfg.nodes, 2) + 1;
    forall m | 0 <= m < cfg.nodes
      ensures Sum(ListenersWork(cfg, c', m)) <= Sum(ListenersWork(cfg, c, m)) + 2
    {
      AppendedWork(cfg, c, c', m, t);
    }
    assert |c'.nodes[step.n].queue| == |c.nodes[step.n].queue| - 1;
    assert Times(|c'.nodes[step.n].queue|, cost) + cost == Times(|c.nodes[step.n].queue|, cost);
    SumChange(NodesWork(cfg, c), NodesWork(cfg, c'), step.n, cost, 2);
  }

  /** The listener has neither been delivered nor saved anything. */
  predicate SameTurn(l: Listener, l': Listener) {
    l'.cursor == l.cursor && l'.inflight == l.inflight
  }

  /** One more message on a shard is at most one more to take and to save. */
  lemma AppendedWork(cfg: Config, c: State, c': State, m: nat, t: nat)
    requires Wf(cfg, c) && Wf(cfg, c') && m < cfg.nodes && t < cfg.shards && c'.first == c.first
    requires |c'.logs[t]| == |c.logs[t]| + 1
    requires forall s :: 0 <= s < cfg.shards ==> SameTurn(c.nodes[m].listeners[s], c'.nodes[m].listeners[s])
    requires forall s :: 0 <= s < cfg.shards && s != t ==> c'.logs[s] == c.logs[s]
    ensures Sum(ListenersWork(cfg, c', m)) <= Sum(ListenersWork(cfg, c, m)) + 2
  {
    var xs, ys := ListenersWork(cfg, c, m), ListenersWork(cfg, c', m);
    SumShift(xs, t, 2);
    SumGrows(xs[t := xs[t] + 2], ys, 0);
    TimesZero(cfg.shards);
  }

  lemma MovedListenerWork(cfg: Config, c: State, c': State, n: nat, s: nat, less: nat)
    requires Wf(cfg, c) && Wf(cfg, c') && n < cfg.nodes && s < cfg.shards && OnlyListener(c, c', n, s)
    requires ListenerWork(c', n, s) + less <= ListenerWork(c, n, s)
    ensures NodeWork(cfg, c', n) + less <= NodeWork(cfg, c, n)
  {
    var xs, ys := ListenersWork(cfg, c, n), ListenersWork(cfg, c', n);
    forall t | 0 <= t < cfg.shards && t != s ensures ys[t] == xs[t] {
      assert c'.nodes[n].listeners[t] == c.nodes[n].listeners[t];
    }
    SumShrinks(xs, ys, s, less);
  }

  lemma SameNodeWork(cfg: Config, c: State, c': State, m: nat)
    requires Wf(cfg, c) && Wf(cfg, c') && m < cfg.nodes
    requires c'.nodes[m] == c.nodes[m] && c'.logs == c.logs && c'.first == c.first
    ensures NodeWork(cfg, c', m) == NodeWork(cfg, c, m)
  {
    assert ListenersWork(cfg, c', m) == ListenersWork(cfg, c, m);
  }

  /** A delivery or a save moves one listener. */
  lemma ListenerStepWork(cfg: Config, c: State, c': State, n: nat, s: nat, less: nat)
    requires Wf(cfg, c) && Wf(cfg, c') && n < cfg.nodes && s < cfg.shards && OnlyListener(c, c', n, s)
    requires ListenerWork(c', n, s) + less <= ListenerWork(c, n, s)
    ensures Work(cfg, c') + less <= Work(cfg, c)
  {
    MovedListenerWork(cfg, c, c', n, s, less);
    forall m | 0 <= m < cfg.nodes && m != n ensures NodeWork(cfg, c', m) == NodeWork(cfg, c, m) {
      SameNodeWork(cfg, c, c', m);
    }
    SumShrinks(NodesWork(cfg, c), NodesWork(cfg, c'), n, less);
  }

  lemma DeliverWork(cfg: Config, c: State, n: nat, s: nat, q: nat)
    requires Wf(cfg, c) && Enabled(cfg, c, Deliver(n, s, q)) && OnTrack(PositionOf(c, n, s))
    ensures var c' := Do(cfg, c, Deliver(n, s, q));
            Wf(cfg, c') && Work(cfg, c') + (if Useful(c, Deliver(n, s, q)) then 1 else 0) <= Work(cfg, c)
  {
    StepKeepsWf(cfg, c, Deliver(n, s, q));
    var c' := Do(cfg, c, Deliver(n, s, q));
    ListenerStepWork(cfg, c, c', n, s, if Useful(c, Deliver(n, s, q)) then 1 else 0);
  }

  lemma SaveWork(cfg: Config, c: State, n: nat, s: nat)
    requires Wf(cfg, c) && Enabled(cfg, c, SaveSeq(n, s))
    ensures Wf(cfg, Do(cfg, c, SaveSeq(n, s))) && Work(cfg, Do(cfg, c, SaveSeq(n, s))) + 1 <= Work(cfg, c)
  {
    StepKeepsWf(cfg, c, SaveSeq(n, s));
    ListenerStepWork(cfg, c, Do(cfg, c, SaveSeq(n, s)), n, s, 1);
  }

  /** Useful steps use work up, redeliveries add none. */
  lemma StepWork(cfg: Config, init: Tables, c: State, step: Step)
    requires Replicable(cfg) && Steady(cfg, init, c) && Enabled(cfg, c, step) && Scheduled(cfg, c, step)
    ensures Steady(cfg, init, Do(cfg, c, step))
    ensures Work(cfg, Do(cfg, c, step)) + (if Useful(c, step) then 1 else 0) <= Work(cfg, c)
  {
    StepKeepsSteady(cfg, init, c, step);
    match step
    case Publish(_, _, _, _) => PublishWork(cfg, c, step);
    case SaveSeq(n, s) => SaveWork(cfg, c, n, s);
    case Deliver(n, s, q) =>
      assert NodeOnTrack(cfg, c, n);
      DeliverWork(cfg, c, n, s, q);
  }

  ghost function ScheduledNext(cfg: Config): (State, Step) -> Option<State> {
    (c, step) =>
      if Wf(cfg, c) && Enabled(cfg, c, step) && Scheduled(cfg, c, step) then Some(Do(cfg, c, step)) else None
  }

  /** A quiet run: useful steps and redeliveries, in any order. */
  ghost predicate ScheduledRun(cfg: Config, c0: State, steps: seq<Step>, c: State) {
    Path(ScheduledNext(cfg), c0, steps, c)
  }

  ghost function UsefulIn(cfg: Config): (State, Step) -> bool {
    (c, step) => Wf(cfg, c) && Enabled(cfg, c, step) && Useful(c, step)
  }

  ghost function SteadyIn(cfg: Config, init: Tables): State -> bool {
    c => Steady(cfg, init, c)
  }

  ghost function WorkIn(cfg: Config): State -> nat {
    c => if Wf(cfg, c) then Work(cfg, c) else 0
  }

  /** The useful steps of a run. */
  ghost function UsefulSteps(cfg: Config, c: State, steps: seq<Step>): nat {
    Count(ScheduledNext(cfg), UsefulIn(cfg), c, steps)
  }

  lemma ScheduledStep(cfg: Config, init: Tables, c: State, step: Step)
    requires Replicable(cfg) && SteadyIn(cfg, init)(c) && ScheduledNext(cfg)(c, step).Some?
    ensures var c' := ScheduledNext(cfg)(c, step).value;
            SteadyIn(cfg, init)(c')
            && WorkIn(cfg)(c') + (if UsefulIn(cfg)(c, step) then 1 else 0) <= WorkIn(cfg)(c)
  {
    StepWork(cfg, init, c, step);
  }

  /** No quiet schedule takes more useful steps than there is work, and it leaves the rest undone. */
  lemma ScheduleIsBounded(cfg: Config, init: Tables, c0: State, steps: seq<Step>, c: State)
    requires Replicable(cfg) && Steady(cfg, init, c0) && ScheduledRun(cfg, c0, steps, c)
    ensures Steady(cfg, init, c) && UsefulSteps(cfg, c0, steps) + Work(cfg, c) <= Work(cfg, c0)
  {
    var next, useful, steady, work := ScheduledNext(cfg), UsefulIn(cfg), SteadyIn(cfg, init), WorkIn(cfg);
    forall s, t | steady(s) && next(s, t).Some?
      ensures steady(next(s, t).value)
           && work(next(s, t).value) + (if useful(s, t) then 1 else 0) <= work(s)
    {
      ScheduledStep(cfg, init, s, t);
    }
    PathMeasure(next, useful, steady, work, c0, steps, c);
  }

  /** A listener that is not settled can save or take the next message. */
  lemma ShardCanMove(cfg: Config, c: State, n: nat, s: nat) returns (step: Step)
    requires Wf(cfg, c) && n < cfg.nodes && s < cfg.shards && c.nodes[n].up && !ShardSettled(c, n, s)
    ensures Enabled(cfg, c, step) && Scheduled(cfg, c, step) && Useful(c, step)
  {
    step := if c.nodes[n].listeners[s].inflight != 0 then SaveSeq(n, s)
            else Deliver(n, s, NextSeq(c.nodes[n].listeners[s], c.first[s]));
  }

  /** While some running node is not settled, a useful step can be taken. */
  lemma UnsettledCanMove(cfg: Config, init: Tables, c: State, n: nat) returns (step: Step)
    requires Steady(cfg, init, c) && n < cfg.nodes && c.nodes[n].up && !Settled(cfg, c, n)
    ensures Enabled(cfg, c, step) && Scheduled(cfg, c, step) && Useful(c, step)
  {
    if s :| 0 <= s < cfg.shards && !ShardSettled(c, n, s) {
      step := ShardCanMove(cfg, c, n, s);
    } else {
      SettledByShard(cfg, c, n);
      SettledIsCurrent(cfg, init, c, n, cfg.route(EventKey(cfg.schema, c.nodes[n].queue[0])));
      step := Publish(n, 0, true, cfg.snapshots);
    }
  }

  /** A running node is settled when no work is left. */
  lemma DoneIsSettled(cfg: Config, init: Tables, c: State, n: nat)
    requires Replicable(cfg) && Steady(cfg, init, c) && n < cfg.nodes && c.nodes[n].up && Work(cfg, c) == 0
    ensures Settled(cfg, c, n)
  {
    if !Settled(cfg, c, n) {
      var step := UnsettledCanMove(cfg, init, c, n);
      StepWork(cfg, init, c, step);
      assert false;
    }
  }

  /**
   Every schedule converges: from any state in which all nodes are on track, any quiet run that has
   taken as many useful steps as there was work leaves every running node settled with the replay
   of the shard logs; and before that, any node that is not settled can take a useful step.
   */
  lemma EveryScheduleSettles(cfg: Config, init: Tables, c0: State, steps: seq<Step>, c: State, n: nat)
    requires Replicable(cfg) && Steady(cfg, init, c0) && ScheduledRun(cfg, c0, steps, c)
    requires Wf(cfg, c) && n < cfg.nodes && c.nodes[n].up
    ensures UsefulSteps(cfg, c0, steps) <= Work(cfg, c0)
    ensures UsefulSteps(cfg, c0, steps) == Work(cfg, c0) ==>
              Settled(cfg, c, n) && IsReplayOf(cfg, init, c.logs, c.nodes[n].db.tables)
    ensures Settled(cfg, c, n) || exists step :: Enabled(cfg, c, step) && Scheduled(cfg, c, step) && Useful(c, step)
  {
    ScheduleIsBounded(cfg, init, c0, steps, c);
    if UsefulSteps(cfg, c0, steps) == Work(cfg, c0) {
      DoneIsSettled(cfg, init, c, n);
      SteadySettles(cfg, init, c, n);
    }
    if !Settled(cfg, c, n) {
      var step := UnsettledCanMove(cfg, init, c, n);
    }
  }
}
