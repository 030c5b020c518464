/**
 The lease on a key of the shared key-value store, and the exclusion it gives.

 Every write of the key is a new revision holding an owner and that owner's timestamp. A node
 stamps its own clock, reads the entry, and writes with a compare-and-set on the revision it read.
 Requests can be delayed, lost or answered late; a caller can give up on one and start over.
 */
module Lease {
  import opened Wrappers

  /** One revision of the lease key. */
  datatype LockInfo = LockInfo(node: nat, stamp: int)

  /** Whether a lease entry can be taken over by `node` at time `now`. */
  predicate Free(entry: LockInfo, node: nat, now: int, duration: int) {
    entry.node == node || entry.stamp + duration <= now
  }

  datatype StoreError = WrongRevision

  /** The key's revisions in the store; revision `i + 1` is `history[i]`. */
  class MetaStore {
    var history: seq<LockInfo>

    constructor ()
      ensures history == []
    {
      history := [];
    }

    method Get() returns (entry: Option<(LockInfo, nat)>)
      ensures entry == if history == [] then None else Some((history[|history| - 1], |history|))
    {
      if |history| == 0 {
        return None;
      }
      return Some((history[|history| - 1], |history|));
    }

    /** Writes the key if its latest revision is still `revision`; 0 means the key does not exist. */
    method CompareAndSet(info: LockInfo, revision: nat) returns (ok: bool)
      modifies this
      ensures ok <==> |old(history)| == revision
      ensures history == if ok then old(history) + [info] else old(history)
    {
      ok := |history| == revision;
      if ok {
        history := history + [info];
      }
    }

    /**
     One acquisition attempt by `node`, stamped `now`. `meanwhile` are the revisions that other
     writers add between this attempt's read and its write.
     */
    method AcquireLease(node: nat, now: int, duration: int, meanwhile: seq<LockInfo>)
        returns (r: Result<bool, StoreError>)
      modifies this
      ensures r == Success(true) <==>
                meanwhile == [] && (old(history) == [] || Free(old(history)[|old(history)| - 1], node, now, duration))
      ensures r == Success(false) <==>
                old(history) != [] && !Free(old(history)[|old(history)| - 1], node, now, duration)
      ensures history == old(history) + if r == Success(true) then [LockInfo(node, now)] else meanwhile
    {
      var info := LockInfo(node, now);
      var entry := Get();
      history := history + meanwhile;
      if entry == None {
        var created := CompareAndSet(info, 0);
        return if created then Success(true) else Failure(WrongRevision);
      }
      var (held, revision) := entry.value;
      if held.node != node && held.stamp + duration > now {
        return Success(false);
      }
      var updated := CompareAndSet(info, revision);
      return if updated then Success(true) else Failure(WrongRevision);
    }
  }

  // ---------- the protocol ----------

  datatype Phase =
    | Idle
    // the attempt has taken its timestamp
    | Stamped(now: int)
    // it has read the entry at revision `rev`
    | Read(now: int, rev: nat)
    // its write is on the way
    | Waiting(now: int, rev: nat)
    // it is over
    | Done(now: int, acquired: bool)

  /** A sequential caller: its current attempt, its leader flag and its last successful stamp. */
  datatype Caller = Caller(phase: Phase, flag: bool, lastStamp: int)

  /** A compare-and-set on its way to the store. */
  datatype Request = Request(caller: nat, info: LockInfo, rev: nat)

  datatype State = State(history: seq<LockInfo>, inbox: seq<Request>, clocks: seq<int>, callers: seq<Caller>)

  /** `owner[k]` is the node of caller `k`; `duration` is in the clocks' unit. */
  datatype Config = Config(owner: seq<nat>, nodes: nat, duration: nat)

  ghost predicate Wf(cfg: Config, st: State) {
    |st.callers| == |cfg.owner| && |st.clocks| == cfg.nodes
    && (forall k :: 0 <= k < |cfg.owner| ==> cfg.owner[k] < cfg.nodes)
    && forall i :: 0 <= i < |st.inbox| ==> st.inbox[i].caller < |cfg.owner|
  }

  /** Each node has one sequential caller. */
  ghost predicate OneCallerPerNode(cfg: Config) {
    forall j, k :: 0 <= j < k < |cfg.owner| ==> cfg.owner[j] != cfg.owner[k]
  }

  datatype Step =
    // clocks move, none of them backwards
    | Tick(clocks: seq<int>)
    | Begin(k: nat)
    | Fetch(k: nat)
    // decide on the entry read, and write if it is free
    | Send(k: nat)
    // request `i` reaches the store; the reply may or may not be heard
    | Arrive(i: nat, heard: bool)
    | GiveUp(k: nat)
    // the election loop takes the result over into the leader flag
    | Report(k: nat)
    // the caller crashes or stops
    | Reset(k: nat)

  ghost predicate Enabled(cfg: Config, st: State, step: Step)
    requires Wf(cfg, st)
  {
    match step
    case Tick(clocks) => |clocks| == cfg.nodes && forall n :: 0 <= n < cfg.nodes ==> st.clocks[n] <= clocks[n]
    case Begin(k) => k < |st.callers| && st.callers[k].phase.Idle?
    case Fetch(k) => k < |st.callers| && st.callers[k].phase.Stamped?
    case Send(k) => k < |st.callers| && st.callers[k].phase.Read? && st.callers[k].phase.rev <= |st.history|
    case Arrive(i, _) => i < |st.inbox|
    case GiveUp(k) => k < |st.callers| && st.callers[k].phase.Waiting?
    case Report(k) => k < |st.callers| && st.callers[k].phase.Done?
    case Reset(k) => k < |st.callers|
  }

  function WithPhase(st: State, k: nat, phase: Phase): State
    requires k < |st.callers|
  {
    st.(callers := st.callers[k := st.callers[k].(phase := phase)])
  }

  /** The decision on what was read: an entry of another owner that has not expired is respected. */
  function AfterSend(cfg: Config, st: State, k: nat): State
    requires k < |st.callers| == |cfg.owner| && st.callers[k].phase.Read? && st.callers[k].phase.rev <= |st.history|
  {
    var now, rev := st.callers[k].phase.now, st.callers[k].phase.rev;
    if rev > 0 && !Free(st.history[rev - 1], cfg.owner[k], now, cfg.duration)
    then WithPhase(st, k, Done(now, false))
    else WithPhase(st, k, Waiting(now, rev)).(inbox := st.inbox + [Request(k, LockInfo(cfg.owner[k], now), rev)])
  }

  /** The store's compare-and-set; the caller hears of it only if it still waits for that attempt. */
  function AfterArrive(st: State, i: nat, heard: bool): State
    requires i < |st.inbox| && st.inbox[i].caller < |st.callers|
  {
    var r := st.inbox[i];
    var applied := |st.history| == r.rev;
    var delivered := st.(inbox := st.inbox[..i] + st.inbox[i + 1..],
                         history := if applied then st.history + [r.info] else st.history);
    if heard && st.callers[r.caller].phase == Waiting(r.info.stamp, r.rev)
    then WithPhase(delivered, r.caller, Done(r.info.stamp, applied))
    else delivered
  }

  function AfterReport(st: State, k: nat): State
    requires k < |st.callers| && st.callers[k].phase.Done?
  {
    var c := st.callers[k];
    st.(callers := st.callers[k :=
      Caller(Idle, c.phase.acquired, if c.phase.acquired then c.phase.now else c.lastStamp)])
  }

  ghost function Do(cfg: Config, st: State, step: Step): State
    requires Wf(cfg, st) && Enabled(cfg, st, step)
  {
    match step
    case Tick(clocks) => st.(clocks := clocks)
    case Begin(k) => WithPhase(st, k, Stamped(st.clocks[cfg.owner[k]]))
    case Fetch(k) => WithPhase(st, k, Read(st.callers[k].phase.now, |st.history|))
    case Send(k) => AfterSend(cfg, st, k)
    case Arrive(i, heard) => AfterArrive(st, i, heard)
    case GiveUp(k) => WithPhase(st, k, Done(st.callers[k].phase.now, false))
    case Report(k) => AfterReport(st, k)
    case Reset(k) => st.(callers := st.callers[k := st.callers[k].(phase := Idle, flag := false)])
  }

  ghost predicate IsRun(cfg: Config, st: State, steps: seq<Step>, st': State)
    decreases |steps|
  {
    if |steps| == 0 then st == st'
    else Wf(cfg, st) && Enabled(cfg, st, steps[0]) && IsRun(cfg, Do(cfg, st, steps[0]), steps[1..], st')
  }

  ghost predicate Start(cfg: Config, st: State) {
    Wf(cfg, st) && st.history == [] && st.inbox == []
    && forall k :: 0 <= k < |st.callers| ==> st.callers[k].phase.Idle? && !st.callers[k].flag
  }

  // ---------- the invariant ----------

  /** A later revision may follow an earlier one: same owner and not older, or the lease had expired. */
  ghost predicate Follows(cfg: Config, a: LockInfo, b: LockInfo) {
    if a.node == b.node then a.stamp <= b.stamp else a.stamp + cfg.duration <= b.stamp
  }

  ghost predicate StampsOf(history: seq<LockInfo>, inbox: seq<Request>, node: nat, bound: int) {
    (forall i :: 0 <= i < |history| && history[i].node == node ==> history[i].stamp <= bound)
    && forall i :: 0 <= i < |inbox| && inbox[i].info.node == node ==> inbox[i].info.stamp <= bound
  }

  /** The request's write may follow the entry it was decided on. */
  ghost predicate RequestOk(cfg: Config, st: State, r: Request) {
    r.caller < |cfg.owner| && r.info.node == cfg.owner[r.caller] && r.info.node < cfg.nodes
    && r.rev <= |st.history|
    && (r.rev > 0 ==> Follows(cfg, st.history[r.rev - 1], r.info))
  }

  ghost predicate CallerOk(cfg: Config, st: State, k: nat)
    requires Wf(cfg, st) && k < |cfg.owner|
  {
    var node, c := cfg.owner[k], st.callers[k];
    && (c.flag ==> LockInfo(node, c.lastStamp) in st.history)
    && match c.phase
       case Idle => true
       case Stamped(now) => now <= st.clocks[node] && StampsOf(st.history, st.inbox, node, now)
       case Read(now, rev) =>
         now <= st.clocks[node] && rev <= |st.history|
         && (rev > 0 && st.history[rev - 1].node == node ==> st.history[rev - 1].stamp <= now)
       case Waiting(now, rev) => true
       case Done(now, acquired) => acquired ==> LockInfo(node, now) in st.history
  }

  ghost predicate Inv(cfg: Config, st: State) {
    && Wf(cfg, st)
    && (forall i :: 0 <= i < |st.history| - 1 ==> Follows(cfg, st.history[i], st.history[i + 1]))
    && (forall i :: 0 <= i < |st.history| ==> st.history[i].node < cfg.nodes)
    && (forall i :: 0 <= i < |st.inbox| ==> RequestOk(cfg, st, st.inbox[i]))
    && (forall n :: 0 <= n < cfg.nodes ==> StampsOf(st.history, st.inbox, n, st.clocks[n]))
    && (forall k :: 0 <= k < |cfg.owner| ==> CallerOk(cfg, st, k))
  }

  lemma SendKeepsRequests(cfg: Config, st: State, k: nat)
    requires Inv(cfg, st) && Enabled(cfg, st, Send(k))
    ensures var st' := AfterSend(cfg, st, k);
            && (forall i :: 0 <= i < |st'.inbox| ==> RequestOk(cfg, st', st'.inbox[i]))
            && forall n :: 0 <= n < cfg.nodes ==> StampsOf(st'.history, st'.inbox, n, st'.clocks[n])
  {
    var st' := AfterSend(cfg, st, k);
    assert CallerOk(cfg, st, k);
    forall i | 0 <= i < |st'.inbox| ensures RequestOk(cfg, st', st'.inbox[i]) {
      assert i < |st.inbox| ==> RequestOk(cfg, st, st.inbox[i]);
    }
    forall n | 0 <= n < cfg.nodes ensures StampsOf(st'.history, st'.inbox, n, st'.clocks[n]) {
      assert StampsOf(st.history, st.inbox, n, st.clocks[n]);
    }
  }

  lemma SendKeepsCaller(cfg: Config, st: State, k: nat, j: nat)
    requires Inv(cfg, st) && Enabled(cfg, st, Send(k)) && OneCallerPerNode(cfg) && j < |cfg.owner|
    ensures Wf(cfg, AfterSend(cfg, st, k)) && CallerOk(cfg, AfterSend(cfg, st, k), j)
  {
    assert CallerOk(cfg, st, j) && CallerOk(cfg, st, k);
    assert j != k ==> cfg.owner[j] != cfg.owner[k];
  }

  lemma SendKeepsInv(cfg: Config, st: State, k: nat)
    requires Inv(cfg, st) && Enabled(cfg, st, Send(k)) && OneCallerPerNode(cfg)
    ensures Inv(cfg, AfterSend(cfg, st, k))
  {
    SendKeepsRequests(cfg, st, k);
    forall j | 0 <= j < |cfg.owner|
      ensures Wf(cfg, AfterSend(cfg, st, k)) && CallerOk(cfg, AfterSend(cfg, st, k), j)
    {
      SendKeepsCaller(cfg, st, k, j);
    }
  }

  /** What the store's answer to request `i` changes. */
  lemma ArriveFacts(cfg: Config, st: State, i: nat, heard: bool)
    requires Inv(cfg, st) && Enabled(cfg, st, Arrive(i, heard))
    ensures var st' := AfterArrive(st, i, heard);
            && Wf(cfg, st') && st.history <= st'.history && st'.clocks == st.clocks
            && (forall j :: 0 <= j < |st'.inbox| ==> st'.inbox[j] == st.inbox[if j < i then j else j + 1])
            && (forall j :: 0 <= j < |st'.history| ==> j < |st.history| || st'.history[j] == st.inbox[i].info)
            && (|st'.history| > |st.history| ==> |st.history| == st.inbox[i].rev)
            && (forall info :: info in st.history ==> info in st'.history)
  {
    var st' := AfterArrive(st, i, heard);
    forall info | info in st.history ensures info in st'.history {
      var j :| 0 <= j < |st.history| && st.history[j] == info;
      assert st'.history[j] == info;
    }
  }

  lemma ArriveKeepsStore(cfg: Config, st: State, i: nat, heard: bool)
    requires Inv(cfg, st) && Enabled(cfg, st, Arrive(i, heard))
    ensures var st' := AfterArrive(st, i, heard);
            && (forall j :: 0 <= j < |st'.history| - 1 ==> Follows(cfg, st'.history[j], st'.history[j + 1]))
            && (forall j :: 0 <= j < |st'.history| ==> st'.history[j].node < cfg.nodes)
            && (forall j :: 0 <= j < |st'.inbox| ==> RequestOk(cfg, st', st'.inbox[j]))
  {
    var st' := AfterArrive(st, i, heard);
    assert RequestOk(cfg, st, st.inbox[i]);
    ArriveFacts(cfg, st, i, heard);
    forall j | 0 <= j < |st'.inbox| ensures RequestOk(cfg, st', st'.inbox[j]) {
      assert RequestOk(cfg, st, st'.inbox[j]);
    }
  }

  lemma ArriveKeepsStamps(cfg: Config, st: State, i: nat, heard: bool, n: nat, bound: int)
    requires Inv(cfg, st) && Enabled(cfg, st, Arrive(i, heard)) && StampsOf(st.history, st.inbox, n, bound)
    ensures var st' := AfterArrive(st, i, heard); StampsOf(st'.history, st'.inbox, n, bound)
  {
  }

  lemma ArriveKeepsCaller(cfg: Config, st: State, i: nat, heard: bool, k: nat)
    requires Inv(cfg, st) && Enabled(cfg, st, Arrive(i, heard)) && k < |cfg.owner|
    ensures Wf(cfg, AfterArrive(st, i, heard)) && CallerOk(cfg, AfterArrive(st, i, heard), k)
  {
    assert CallerOk(cfg, st, k) && RequestOk(cfg, st, st.inbox[i]);
    ArriveFacts(cfg, st, i, heard);
    var st' := AfterArrive(st, i, heard);
    assert |st.history| == st.inbox[i].rev ==> st'.history[|st.history|] == st.inbox[i].info;
    if st.callers[k].phase.Stamped? {
      ArriveKeepsStamps(cfg, st, i, heard, cfg.owner[k], st.callers[k].phase.now);
    }
  }

  lemma ArriveKeepsInv(cfg: Config, st: State, i: nat, heard: bool)
    requires Inv(cfg, st) && Enabled(cfg, st, Arrive(i, heard))
    ensures Inv(cfg, AfterArrive(st, i, heard))
  {
    ArriveFacts(cfg, st, i, heard);
    ArriveKeepsStore(cfg, st, i, heard);
    forall n | 0 <= n < cfg.nodes
      ensures StampsOf(AfterArrive(st, i, heard).history, AfterArrive(st, i, heard).inbox, n, st.clocks[n])
    {
      ArriveKeepsStamps(cfg, st, i, heard, n, st.clocks[n]);
    }
    forall k | 0 <= k < |cfg.owner|
      ensures Wf(cfg, AfterArrive(st, i, heard)) && CallerOk(cfg, AfterArrive(st, i, heard), k)
    {
      ArriveKeepsCaller(cfg, st, i, heard, k);
    }
  }

  /** Only caller `k` changes. */
  lemma CallerKeepsInv(cfg: Config, st: State, k: nat, c: Caller)
    requires Inv(cfg, st) && k < |st.callers|
    requires Wf(cfg, st.(callers := st.callers[k := c])) && CallerOk(cfg, st.(callers := st.callers[k := c]), k)
    ensures Inv(cfg, st.(callers := st.callers[k := c]))
  {
    var st' := st.(callers := st.callers[k := c]);
    forall j | 0 <= j < |st'.inbox| ensures RequestOk(cfg, st', st'.inbox[j]) {
      assert RequestOk(cfg, st, st.inbox[j]);
    }
    forall j | 0 <= j < |cfg.owner| ensures CallerOk(cfg, st', j) {
      assert CallerOk(cfg, st, j);
    }
  }

  lemma TickKeepsInv(cfg: Config, st: State, clocks: seq<int>)
    requires Inv(cfg, st) && Enabled(cfg, st, Tick(clocks))
    ensures Inv(cfg, st.(clocks := clocks))
  {
    var st' := st.(clocks := clocks);
    forall j | 0 <= j < |st'.inbox| ensures RequestOk(cfg, st', st'.inbox[j]) {
      assert RequestOk(cfg, st, st.inbox[j]);
    }
    forall n | 0 <= n < cfg.nodes ensures StampsOf(st'.history, st'.inbox, n, st'.clocks[n]) {
      assert StampsOf(st.history, st.inbox, n, st.clocks[n]);
    }
    forall k | 0 <= k < |cfg.owner| ensures CallerOk(cfg, st', k) {
      assert CallerOk(cfg, st, k);
    }
  }

  lemma StepKeepsInv(cfg: Config, st: State, step: Step)
    requires Inv(cfg, st) && Enabled(cfg, st, step) && OneCallerPerNode(cfg)
    ensures Inv(cfg, Do(cfg, st, step))
  {
    match step
    case Tick(clocks) => TickKeepsInv(cfg, st, clocks);
    case Send(k) => SendKeepsInv(cfg, st, k);
    case Arrive(i, heard) => ArriveKeepsInv(cfg, st, i, heard);
    case Begin(k) =>
      assert CallerOk(cfg, st, k) && StampsOf(st.history, st.inbox, cfg.owner[k], st.clocks[cfg.owner[k]]);
      CallerKeepsInv(cfg, st, k, Do(cfg, st, step).callers[k]);
    case Fetch(k) =>
      assert CallerOk(cfg, st, k);
      CallerKeepsInv(cfg, st, k, Do(cfg, st, step).callers[k]);
    case GiveUp(k) =>
      assert CallerOk(cfg, st, k);
      CallerKeepsInv(cfg, st, k, Do(cfg, st, step).callers[k]);
    case Report(k) =>
      assert CallerOk(cfg, st, k);
      CallerKeepsInv(cfg, st, k, Do(cfg, st, step).callers[k]);
    case Reset(k) =>
      assert CallerOk(cfg, st, k);
      CallerKeepsInv(cfg, st, k, Do(cfg, st, step).callers[k]);
  }

  lemma {:induction false} RunKeepsInv(cfg: Config, st: State, steps: seq<Step>, st': State)
    requires Inv(cfg, st) && IsRun(cfg, st, steps, st') && OneCallerPerNode(cfg)
    ensures Inv(cfg, st')
    decreases |steps|
  {
    if |steps| == 0 {
    } else {
      StepKeepsInv(cfg, st, steps[0]);
      RunKeepsInv(cfg, Do(cfg, st, steps[0]), steps[1..], st');
    }
  }

  // ---------- main results ----------

  /** Any two revisions by different owners are at least the duration apart. */
  ghost predicate Exclusive(cfg: Config, history: seq<LockInfo>) {
    forall i, j :: 0 <= i < j < |history| && history[i].node != history[j].node ==>
      history[i].stamp + cfg.duration <= history[j].stamp
  }

  lemma {:induction false} ChainApart(cfg: Config, history: seq<LockInfo>, i: nat, j: nat)
    requires forall m :: 0 <= m < |history| - 1 ==> Follows(cfg, history[m], history[m + 1])
    requires i < j < |history|
    ensures Follows(cfg, history[i], history[j])
    decreases j
  {
    assert Follows(cfg, history[j - 1], history[j]);
    if i < j - 1 {
      ChainApart(cfg, history, i, j - 1);
    }
  }

  /**
   Lease exclusion over whole runs: with one sequential caller per node and clocks that never run
   backwards, any two revisions by different owners carry timestamps at least the duration apart,
   for all pairs and however far the nodes' clocks differ.
   */
  lemma LeaseExclusion(cfg: Config, start: State, steps: seq<Step>, st: State)
    requires OneCallerPerNode(cfg) && Start(cfg, start) && IsRun(cfg, start, steps, st)
    ensures Exclusive(cfg, st.history)
  {
    RunKeepsInv(cfg, start, steps, st);
    forall i, j | 0 <= i < j < |st.history| && st.history[i].node != st.history[j].node
      ensures st.history[i].stamp + cfg.duration <= st.history[j].stamp
    {
      ChainApart(cfg, st.history, i, j);
    }
  }

  /** The flag is set and the last successful stamp has not expired at time `now`. */
  predicate Live(cfg: Config, c: Caller, now: int) {
    c.flag && now < c.lastStamp + cfg.duration
  }

  /**
   Single live leader: with a shared clock, at most one caller has its leader flag set and an
   unexpired last successful stamp; so when two flags are set at once, one of the two nodes has
   gone a full duration without a successful renewal.
   */
  lemma SingleLiveLeader(cfg: Config, start: State, steps: seq<Step>, st: State, now: int, a: nat, b: nat)
    requires OneCallerPerNode(cfg) && Start(cfg, start) && IsRun(cfg, start, steps, st)
    requires Wf(cfg, st) && forall n :: 0 <= n < cfg.nodes ==> st.clocks[n] == now
    requires a < |st.callers| && b < |st.callers| && a != b
    ensures !(Live(cfg, st.callers[a], now) && Live(cfg, st.callers[b], now))
    ensures st.callers[a].flag && st.callers[b].flag ==>
              st.callers[a].lastStamp + cfg.duration <= now || st.callers[b].lastStamp + cfg.duration <= now
  {
    RunKeepsInv(cfg, start, steps, st);
    if st.callers[a].flag && st.callers[b].flag {
      var x, y := LockInfo(cfg.owner[a], st.callers[a].lastStamp), LockInfo(cfg.owner[b], st.callers[b].lastStamp);
      assert CallerOk(cfg, st, a) && CallerOk(cfg, st, b);
      var i :| 0 <= i < |st.history| && st.history[i] == x;
      var j :| 0 <= j < |st.history| && st.history[j] == y;
      assert StampsOf(st.history, st.inbox, x.node, now) && StampsOf(st.history, st.inbox, y.node, now);
      assert cfg.owner[if a < b then a else b] != cfg.owner[if a < b then b else a];
      if i < j {
        ChainApart(cfg, st.history, i, j);
      } else {
        ChainApart(cfg, st.history, j, i);
      }
    }
  }

  // ---------- two callers on one node ----------

  const BLANK := Caller(Idle, false, 0)

  /** Nothing has happened and all clocks show zero. */
  function Blank(cfg: Config): State {
    State([], [], seq(cfg.nodes, _ => 0), seq(|cfg.owner|, _ => BLANK))
  }

  lemma {:induction false} RunSnoc(cfg: Config, a: State, steps: seq<Step>, b: State, step: Step)
    requires IsRun(cfg, a, steps, b) && Wf(cfg, b) && Enabled(cfg, b, step)
    ensures IsRun(cfg, a, steps + [step], Do(cfg, b, step))
    decreases |steps|
  {
    if |steps| == 0 {
      assert IsRun(cfg, Do(cfg, b, step), [step][1..], Do(cfg, b, step));
      assert steps + [step] == [step];
    } else {
      RunSnoc(cfg, Do(cfg, a, steps[0]), steps[1..], b, step);
      assert (steps + [step])[1..] == steps[1..] + [step];
    }
  }

  ghost predicate Reaches(cfg: Config, a: State, b: State) {
    exists steps :: IsRun(cfg, a, steps, b)
  }

  lemma ReachOn(cfg: Config, a: State, b: State, step: Step)
    requires Reaches(cfg, a, b) && Wf(cfg, b) && Enabled(cfg, b, step)
    ensures Reaches(cfg, a, Do(cfg, b, step))
  {
    var steps :| IsRun(cfg, a, steps, b);
    RunSnoc(cfg, a, steps, b, step);
  }

  /** The state after a caller has read, decided and written without delay. */
  function Written(cfg: Config, st: State, k: nat): State
    requires k < |st.callers| == |cfg.owner| && st.callers[k].phase.Stamped?
  {
    var now := st.callers[k].phase.now;
    WithPhase(st, k, Waiting(now, |st.history|)).(history := st.history + [LockInfo(cfg.owner[k], now)])
  }

  lemma WriteThrough(cfg: Config, a: State, st: State, k: nat)
    requires Reaches(cfg, a, st) && Wf(cfg, st) && st.inbox == []
    requires k < |st.callers| && st.callers[k].phase.Stamped?
    requires st.history != [] ==>
               Free(st.history[|st.history| - 1], cfg.owner[k], st.callers[k].phase.now, cfg.duration)
    ensures Reaches(cfg, a, Written(cfg, st, k)) && Wf(cfg, Written(cfg, st, k))
  {
    var now := st.callers[k].phase.now;
    ReachOn(cfg, a, st, Fetch(k));
    var read := Do(cfg, st, Fetch(k));
    ReachOn(cfg, a, read, Send(k));
    var sent := Do(cfg, read, Send(k));
    assert sent.inbox == [Request(k, LockInfo(cfg.owner[k], now), |st.history|)];
    ReachOn(cfg, a, sent, Arrive(0, false));
    assert Do(cfg, sent, Arrive(0, false)) == Written(cfg, st, k);
  }

  /** Callers `j` and `k` share a node and caller `m` has another one. */
  ghost predicate Shares(cfg: Config, j: nat, k: nat, m: nat) {
    j < |cfg.owner| && k < |cfg.owner| && m < |cfg.owner|
    && j != k && cfg.owner[j] == cfg.owner[k] && cfg.owner[m] != cfg.owner[j]
  }

  ghost predicate WfOwners(cfg: Config) {
    forall k :: 0 <= k < |cfg.owner| ==> cfg.owner[k] < cfg.nodes
  }

  /** Three attempts have taken their stamps: `j` at 0, `k` at 1 and `m` at the lease duration. */
  lemma ThreeStamps(cfg: Config, j: nat, k: nat, m: nat) returns (st: State)
    requires WfOwners(cfg) && Shares(cfg, j, k, m)
    ensures Start(cfg, Blank(cfg)) && Reaches(cfg, Blank(cfg), st) && Wf(cfg, st)
    ensures st.history == [] && st.inbox == [] && st.callers[j].phase == Stamped(0)
    ensures st.callers[k].phase == Stamped(1) && st.callers[m].phase == Stamped(cfg.duration)
  {
    var start := Blank(cfg);
    assert IsRun(cfg, start, [], start);
    ReachOn(cfg, start, start, Begin(j));
    st := Do(cfg, start, Begin(j));
    var clocks: seq<int> := seq(cfg.nodes, n => if n == cfg.owner[j] then 1 else cfg.duration);
    ReachOn(cfg, start, st, Tick(clocks));
    st := Do(cfg, st, Tick(clocks));
    ReachOn(cfg, start, st, Begin(k));
    st := Do(cfg, st, Begin(k));
    ReachOn(cfg, start, st, Begin(m));
    st := Do(cfg, st, Begin(m));
  }

  /**
   A second attempt on one node stamps later but writes first; the first attempt then puts the
   older stamp on top, and another node takes over from that one too early.
   */
  lemma SharedNodeBreaksExclusion(cfg: Config, j: nat, k: nat, m: nat)
    requires WfOwners(cfg) && Shares(cfg, j, k, m)
    ensures exists st :: Start(cfg, Blank(cfg)) && Reaches(cfg, Blank(cfg), st) && !Exclusive(cfg, st.history)
  {
    var st := ThreeStamps(cfg, j, k, m);
    WriteThrough(cfg, Blank(cfg), st, k);
    var st1 := Written(cfg, st, k);
    WriteThrough(cfg, Blank(cfg), st1, j);
    var st2 := Written(cfg, st1, j);
    WriteThrough(cfg, Blank(cfg), st2, m);
    var st3 := Written(cfg, st2, m);
    assert st3.history[0] == LockInfo(cfg.owner[k], 1) && st3.history[2] == LockInfo(cfg.owner[m], cfg.duration);
  }

  /** All callers belong to one node. */
  ghost predicate SingleOwner(cfg: Config) {
    forall j, k :: 0 <= j < k < |cfg.owner| ==> cfg.owner[j] == cfg.owner[k]
  }

  /** Revisions and requests carry the one owner. */
  ghost predicate OwnersOk(cfg: Config, st: State) {
    && (forall i :: 0 <= i < |st.history| ==> st.history[i].node in cfg.owner)
    && forall i :: 0 <= i < |st.inbox| ==> st.inbox[i].info.node in cfg.owner
  }

  lemma {:induction false} RunKeepsOwners(cfg: Config, st: State, steps: seq<Step>, st': State)
    requires OwnersOk(cfg, st) && IsRun(cfg, st, steps, st')
    ensures OwnersOk(cfg, st')
    decreases |steps|
  {
    if |steps| == 0 {
    } else {
      RunKeepsOwners(cfg, Do(cfg, st, steps[0]), steps[1..], st');
    }
  }

  ghost predicate AlwaysExclusive(cfg: Config) {
    forall start, steps, st :: Start(cfg, start) && IsRun(cfg, start, steps, st) ==> Exclusive(cfg, st.history)
  }

  /**
   Leases exclude in every run exactly when no two callers share a node, or there is only one node
   to lease to.
   */
  lemma ExclusionExactly(cfg: Config)
    requires WfOwners(cfg)
    ensures AlwaysExclusive(cfg) <==> OneCallerPerNode(cfg) || SingleOwner(cfg)
  {
    if OneCallerPerNode(cfg) || SingleOwner(cfg) {
      forall start, steps, st | Start(cfg, start) && IsRun(cfg, start, steps, st)
        ensures Exclusive(cfg, st.history)
      {
        if OneCallerPerNode(cfg) {
          LeaseExclusion(cfg, start, steps, st);
        } else {
          RunKeepsOwners(cfg, start, steps, st);
        }
      }
    } else {
      var j, k :| 0 <= j < k < |cfg.owner| && cfg.owner[j] == cfg.owner[k];
      var a, b :| 0 <= a < b < |cfg.owner| && cfg.owner[a] != cfg.owner[b];
      var m := if cfg.owner[a] != cfg.owner[j] then a else b;
      assert Shares(cfg, j, k, m);
      SharedNodeBreaksExclusion(cfg, j, k, m);
      var st :| Start(cfg, Blank(cfg)) && Reaches(cfg, Blank(cfg), st) && !Exclusive(cfg, st.history);
      var steps :| IsRun(cfg, Blank(cfg), steps, st);
    }
  }
}
