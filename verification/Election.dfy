/**
 The election loop of the leader objects as a run of the lease protocol: their attempts are runs,
 their flags inherit exclusion, and a lease that is renewed in time is kept.
 */
module Election {
  import opened Lease
  import opened Leader

  /** Caller `k` of the protocol stands for a leader object. */
  ghost predicate Mirrors(cfg: Config, st: State, k: nat, v: Standing) {
    && k < |cfg.owner| && k < |st.callers|
    && cfg.owner[k] == v.nodeID && cfg.duration == Millis(v.ttl) && v.ttl >= 0
    && st.callers[k].flag == v.isLeader && st.callers[k].lastStamp == v.lastStamp
  }

  // ---------- attempts are runs ----------

  /** The state in which caller `k` has stamped and read. */
  function Fetched(cfg: Config, st: State, k: nat): State
    requires k < |st.callers| && k < |cfg.owner| && cfg.owner[k] < |st.clocks|
  {
    WithPhase(st, k, Read(st.clocks[cfg.owner[k]], |st.history|))
  }

  lemma FetchReaches(cfg: Config, st: State, k: nat)
    requires Wf(cfg, st) && k < |st.callers| && st.callers[k].phase.Idle?
    ensures Reaches(cfg, st, Fetched(cfg, st, k))
  {
    assert IsRun(cfg, st, [], st);
    ReachOn(cfg, st, st, Begin(k));
    ReachOn(cfg, st, Do(cfg, st, Begin(k)), Fetch(k));
    assert Do(cfg, Do(cfg, st, Begin(k)), Fetch(k)) == Fetched(cfg, st, k);
  }

  lemma {:induction false} RunsJoin(cfg: Config, a: State, first: seq<Step>, b: State, second: seq<Step>, c: State)
    requires IsRun(cfg, a, first, b) && IsRun(cfg, b, second, c)
    ensures IsRun(cfg, a, first + second, c)
    decreases |first|
  {
    if |first| == 0 {
      assert first + second == second;
    } else {
      RunsJoin(cfg, Do(cfg, a, first[0]), first[1..], b, second, c);
      assert (first + second)[1..] == first[1..] + second;
    }
  }

  lemma ReachesJoin(cfg: Config, a: State, b: State, c: State)
    requires Reaches(cfg, a, b) && Reaches(cfg, b, c)
    ensures Reaches(cfg, a, c)
  {
    var first :| IsRun(cfg, a, first, b);
    var second :| IsRun(cfg, b, second, c);
    RunsJoin(cfg, a, first, b, second, c);
  }

  /** The result of caller `k`'s attempt is taken into its flag. */
  function Reported(st: State, k: nat, acquired: bool): State
    requires k < |st.callers| && st.callers[k].phase.Read?
  {
    var c := st.callers[k];
    st.(callers := st.callers[k := Caller(Idle, acquired, if acquired then c.phase.now else c.lastStamp)])
  }

  /** A write that is answered at once, with the result taken into the flag. */
  lemma WriteReaches(cfg: Config, start: State, sent: State, k: nat, mid: State, acquired: bool)
    requires Reaches(cfg, start, sent) && Wf(cfg, sent)
    requires k < |mid.callers| == |cfg.owner| && mid.callers[k].phase.Read?
    requires var now, rev := mid.callers[k].phase.now, mid.callers[k].phase.rev;
             && sent == WithPhase(mid, k, Waiting(now, rev)).(
                          inbox := mid.inbox + [Request(k, LockInfo(cfg.owner[k], now), rev)])
             && (acquired <==> rev == |mid.history|)
    ensures Reaches(cfg, start, Reported(mid, k, acquired).(
              history := if acquired then mid.history + [LockInfo(cfg.owner[k], mid.callers[k].phase.now)]
                         else mid.history))
  {
    ReachOn(cfg, start, sent, Arrive(|mid.inbox|, true));
    var answered := Do(cfg, sent, Arrive(|mid.inbox|, true));
    assert answered.inbox == mid.inbox;
    ReachOn(cfg, start, answered, Report(k));
    assert Do(cfg, answered, Report(k)).callers == Reported(mid, k, acquired).callers;
  }

  /** Deciding on the entry read, and writing if it is free. */
  lemma DecideReaches(cfg: Config, start: State, mid: State, k: nat, acquired: bool, history: seq<LockInfo>)
    requires Reaches(cfg, start, mid) && Wf(cfg, mid) && k < |mid.callers| && mid.callers[k].phase.Read?
    requires var now, rev := mid.callers[k].phase.now, mid.callers[k].phase.rev;
             && rev <= |mid.history|
             && (acquired <==> rev == |mid.history|
                               && (rev == 0 || Free(mid.history[rev - 1], cfg.owner[k], now, cfg.duration)))
             && history == if acquired then mid.history + [LockInfo(cfg.owner[k], now)] else mid.history
    ensures Reaches(cfg, start, Reported(mid, k, acquired).(history := history))
  {
    var now, rev := mid.callers[k].phase.now, mid.callers[k].phase.rev;
    ReachOn(cfg, start, mid, Send(k));
    var sent := Do(cfg, mid, Send(k));
    if rev > 0 && !Free(mid.history[rev - 1], cfg.owner[k], now, cfg.duration) {
      ReachOn(cfg, start, sent, Report(k));
      assert Do(cfg, sent, Report(k)).callers == Reported(mid, k, acquired).callers;
    } else {
      WriteReaches(cfg, start, sent, k, mid, acquired);
    }
  }

  /**
   An attempt of a leader object is a run of the protocol: from a state that the object mirrors,
   through whatever the other callers do between its read and its write, to one that it mirrors
   again, with the flag, the stamp and the revisions that the object and its store then have.
   */
  lemma AttemptIsRun(cfg: Config, st: State, k: nat, v: Standing, mid: State, meanwhile: seq<LockInfo>,
                     v': Standing, after: seq<LockInfo>) returns (st': State)
    requires Wf(cfg, st) && Mirrors(cfg, st, k, v) && st.callers[k].phase.Idle?
    requires Reaches(cfg, Fetched(cfg, st, k), mid) && Wf(cfg, mid)
    requires mid.callers[k] == Fetched(cfg, st, k).callers[k] && mid.history == st.history + meanwhile
    requires Attempt(v, st.history, st.clocks[cfg.owner[k]], meanwhile, v', after)
    ensures Reaches(cfg, st, st') && Mirrors(cfg, st', k, v') && st'.history == after
    ensures st'.callers == mid.callers[k := Caller(Idle, v'.isLeader, v'.lastStamp)]
    ensures st'.inbox == mid.inbox && st'.clocks == mid.clocks
  {
    FetchReaches(cfg, st, k);
    ReachesJoin(cfg, st, Fetched(cfg, st, k), mid);
    DecideReaches(cfg, st, mid, k, v'.isLeader, after);
    st' := Reported(mid, k, v'.isLeader).(history := after);
  }

  /** Stopping an object is the protocol's reset of its caller. */
  lemma StopIsStep(cfg: Config, st: State, k: nat, v: Standing)
    requires Wf(cfg, st) && Mirrors(cfg, st, k, v)
    ensures Enabled(cfg, st, Reset(k)) && Mirrors(cfg, Do(cfg, st, Reset(k)), k, v.(isLeader := false))
    ensures Do(cfg, st, Reset(k)).callers[k].phase.Idle? && Do(cfg, st, Reset(k)).history == st.history
  {
  }

  /**
   Single live leader, for the objects and in time: with a shared clock no two of them have their
   flags set while both leases last past the current millisecond.
   */
  lemma OneLeader(cfg: Config, start: State, st: State, now: int, a: nat, b: nat, x: Standing, y: Standing)
    requires OneCallerPerNode(cfg) && Start(cfg, start) && Reaches(cfg, start, st)
    requires Wf(cfg, st) && forall n :: 0 <= n < cfg.nodes ==> st.clocks[n] == now
    requires a != b && Mirrors(cfg, st, a, x) && Mirrors(cfg, st, b, y)
    ensures !(&& x.isLeader && (now - x.lastStamp + 1) * 1_000_000 <= x.ttl
              && y.isLeader && (now - y.lastStamp + 1) * 1_000_000 <= y.ttl)
  {
    var steps :| IsRun(cfg, start, steps, st);
    SingleLiveLeader(cfg, start, steps, st, now, a, b);
    MillisExact(x.ttl, now - x.lastStamp);
    MillisExact(y.ttl, now - y.lastStamp);
  }

  // ---------- a lease that is renewed in time ----------

  /** On every clock the newest revision is at most `period` nanoseconds old. */
  ghost predicate Timely(st: State, period: int) {
    st.history != [] ==>
      forall n :: 0 <= n < |st.clocks| ==>
        (st.clocks[n] - st.history[|st.history| - 1].stamp) * 1_000_000 <= period
  }

  ghost predicate TimelyRun(cfg: Config, period: int, st: State, steps: seq<Step>, st': State)
    decreases |steps|
  {
    && Timely(st, period)
    && if |steps| == 0 then st == st'
       else
         && Wf(cfg, st) && Enabled(cfg, st, steps[0])
         && TimelyRun(cfg, period, Do(cfg, st, steps[0]), steps[1..], st')
  }

  /** Caller `k` of another node is not about to take the lease that `h` holds. */
  ghost predicate Behind(cfg: Config, st: State, h: nat, k: nat)
    requires Wf(cfg, st) && k < |cfg.owner| && st.history != []
  {
    match st.callers[k].phase
    case Stamped(now) => now <= st.clocks[cfg.owner[k]]
    case Read(now, rev) =>
      rev <= |st.history|
      && (cfg.owner[k] != h && rev == |st.history| ==>
            now < st.history[|st.history| - 1].stamp + cfg.duration)
    case _ => true
  }

  /** `h` holds the lease, and nobody else is about to take it. */
  ghost predicate Held(cfg: Config, st: State, h: nat) {
    && Wf(cfg, st) && st.history != [] && st.history[|st.history| - 1].node == h
    && (forall i :: 0 <= i < |st.inbox| && st.inbox[i].info.node != h ==> st.inbox[i].rev < |st.history|)
    && forall k :: 0 <= k < |cfg.owner| ==> Behind(cfg, st, h, k)
  }

  /** A write that takes effect makes its node the holder. */
  lemma WrittenIsHeld(cfg: Config, st: State, i: nat, heard: bool)
    requires Inv(cfg, st) && Enabled(cfg, st, Arrive(i, heard)) && st.inbox[i].rev == |st.history|
    ensures Held(cfg, Do(cfg, st, Arrive(i, heard)), st.inbox[i].info.node)
  {
    var st' := Do(cfg, st, Arrive(i, heard));
    ArriveFacts(cfg, st, i, heard);
    forall j | 0 <= j < |st'.inbox| ensures st'.inbox[j].rev < |st'.history| {
      assert RequestOk(cfg, st, st.inbox[if j < i then j else j + 1]);
    }
    forall k | 0 <= k < |cfg.owner| ensures Behind(cfg, st', st.inbox[i].info.node, k) {
      assert CallerOk(cfg, st, k);
    }
  }

  /** The period, in the timestamps' unit, ends before the lease does. */
  ghost predicate Shorter(cfg: Config, period: int) {
    forall age :: age * 1_000_000 <= period ==> age < cfg.duration
  }

  lemma FetchKeepsBehind(cfg: Config, period: int, st: State, h: nat, k: nat)
    requires Held(cfg, st, h) && Timely(st, period) && Shorter(cfg, period) && Enabled(cfg, st, Fetch(k))
    ensures Behind(cfg, Do(cfg, st, Fetch(k)), h, k)
  {
    assert Behind(cfg, st, h, k);
    var age := st.clocks[cfg.owner[k]] - st.history[|st.history| - 1].stamp;
    assert age * 1_000_000 <= period;
  }

  /** A caller of another node finds the lease unexpired, or sends a write that comes too late. */
  lemma SendKeepsHeld(cfg: Config, st: State, h: nat, k: nat)
    requires Held(cfg, st, h) && Enabled(cfg, st, Send(k))
    ensures Held(cfg, AfterSend(cfg, st, k), h) && AfterSend(cfg, st, k).history == st.history
  {
    var st' := AfterSend(cfg, st, k);
    assert Behind(cfg, st, h, k);
    forall j | 0 <= j < |cfg.owner| ensures Behind(cfg, st', h, j) {
      assert Behind(cfg, st, h, j);
    }
  }

  /** Only the holder's own writes take effect. */
  lemma ArriveKeepsHeld(cfg: Config, st: State, h: nat, i: nat, heard: bool)
    requires Held(cfg, st, h) && Enabled(cfg, st, Arrive(i, heard))
    ensures var st' := AfterArrive(st, i, heard);
            && Held(cfg, st', h) && st.history <= st'.history
            && forall j :: |st.history| <= j < |st'.history| ==> st'.history[j].node == h
  {
    var st' := AfterArrive(st, i, heard);
    forall j | 0 <= j < |cfg.owner| ensures Behind(cfg, st', h, j) {
      assert Behind(cfg, st, h, j);
    }
  }

  lemma StepKeepsHeld(cfg: Config, period: int, st: State, h: nat, step: Step)
    requires Held(cfg, st, h) && Timely(st, period) && Shorter(cfg, period) && Enabled(cfg, st, step)
    ensures Held(cfg, Do(cfg, st, step), h)
    ensures st.history <= Do(cfg, st, step).history
    ensures forall i :: |st.history| <= i < |Do(cfg, st, step).history| ==> Do(cfg, st, step).history[i].node == h
  {
    match step
    case Send(k) => SendKeepsHeld(cfg, st, h, k);
    case Arrive(i, heard) => ArriveKeepsHeld(cfg, st, h, i, heard);
    case Fetch(k) =>
      FetchKeepsBehind(cfg, period, st, h, k);
      forall j | 0 <= j < |cfg.owner| ensures Behind(cfg, Do(cfg, st, step), h, j) {
        assert Behind(cfg, st, h, j);
      }
    case _ =>
      forall j | 0 <= j < |cfg.owner| ensures Behind(cfg, Do(cfg, st, step), h, j) {
        assert Behind(cfg, st, h, j);
      }
  }

  lemma {:induction false} RunKeepsHeld(cfg: Config, period: int, st: State, steps: seq<Step>, st': State, h: nat)
    requires Held(cfg, st, h) && Shorter(cfg, period) && TimelyRun(cfg, period, st, steps, st')
    ensures st.history <= st'.history
    ensures forall i :: |st.history| <= i < |st'.history| ==> st'.history[i].node == h
    decreases |steps|
  {
    if |steps| == 0 {
    } else {
      StepKeepsHeld(cfg, period, st, h, steps[0]);
      RunKeepsHeld(cfg, period, Do(cfg, st, steps[0]), steps[1..], st', h);
    }
  }

  lemma HeldStays(cfg: Config, period: int, st: State, h: nat)
    requires Held(cfg, st, h) && Shorter(cfg, period)
    ensures Stays(cfg, period, st, h)
  {
    forall steps, st' | TimelyRun(cfg, period, st, steps, st')
      ensures forall j :: |st.history| <= j < |st'.history| ==> st'.history[j].node == h
    {
      RunKeepsHeld(cfg, period, st, steps, st', h);
    }
  }

  /** No node but `h` writes for as long as the newest revision stays within the period. */
  ghost predicate Stays(cfg: Config, period: int, st: State, h: nat) {
    forall steps, st' :: TimelyRun(cfg, period, st, steps, st') ==>
      forall j :: |st.history| <= j < |st'.history| ==> st'.history[j].node == h
  }

  /** The lease protocol of leader objects with the given lease time is in some reachable state. */
  ghost predicate Reachable(cfg: Config, ttl: int, st: State) {
    && OneCallerPerNode(cfg) && cfg.duration == Millis(Ttl(ttl)) && Wf(cfg, st)
    && exists start :: Start(cfg, start) && Reaches(cfg, start, st)
  }

  /**
   Once a write has taken effect, no other node's write does for as long as the newest revision
   never gets older than the renewal period on any clock.
   */
  ghost predicate Keeps(ttl: int) {
    forall cfg, st, i: nat, heard ::
      Reachable(cfg, ttl, st) && Enabled(cfg, st, Arrive(i, heard)) && st.inbox[i].rev == |st.history| ==>
        Stays(cfg, Heartbeat(ttl), Do(cfg, st, Arrive(i, heard)), st.inbox[i].info.node)
  }

  lemma PeriodShorter(cfg: Config, ttl: int)
    requires Ttl(ttl) >= 1_001_000_000 && cfg.duration == Millis(Ttl(ttl))
    ensures Shorter(cfg, Heartbeat(ttl))
  {
    forall age | age * 1_000_000 <= Heartbeat(ttl) ensures age < cfg.duration {
      MillisExact(Ttl(ttl), age);
    }
  }

  /** A renewal within the period comes in time. */
  lemma RenewedIsKept(ttl: int)
    requires Ttl(ttl) >= 1_001_000_000
    ensures Keeps(ttl)
  {
    forall cfg, st, i: nat, heard |
      Reachable(cfg, ttl, st) && Enabled(cfg, st, Arrive(i, heard)) && st.inbox[i].rev == |st.history|
      ensures Stays(cfg, Heartbeat(ttl), Do(cfg, st, Arrive(i, heard)), st.inbox[i].info.node)
    {
      var start :| Start(cfg, start) && Reaches(cfg, start, st);
      var before :| IsRun(cfg, start, before, st);
      RunKeepsInv(cfg, start, before, st);
      WrittenIsHeld(cfg, st, i, heard);
      PeriodShorter(cfg, ttl);
      HeldStays(cfg, Heartbeat(ttl), Do(cfg, st, Arrive(i, heard)), st.inbox[i].info.node);
    }
  }

  /** Two nodes with a caller each. */
  function Pair(duration: nat): Config {
    Config([0, 1], 2, duration)
  }

  /** Both clocks show `now`, node 0 has written at 0, and node 1 is in some phase of its attempt. */
  function Scene(history: seq<LockInfo>, inbox: seq<Request>, now: int, first: Phase, second: Phase): State {
    State(history, inbox, [now, now], [Caller(first, false, 0), Caller(second, false, 0)])
  }

  /** Node 0 has stamped 0, read the empty key and sent its write. */
  lemma FirstWrite(duration: nat) returns (st: State)
    ensures st == Scene([], [Request(0, LockInfo(0, 0), 0)], 0, Waiting(0, 0), Idle)
    ensures Start(Pair(duration), Scene([], [], 0, Idle, Idle))
    ensures Reaches(Pair(duration), Scene([], [], 0, Idle, Idle), st)
  {
    var cfg, start := Pair(duration), Scene([], [], 0, Idle, Idle);
    FetchReaches(cfg, start, 0);
    var read := Fetched(cfg, start, 0);
    assert read == Scene([], [], 0, Read(0, 0), Idle);
    ReachOn(cfg, start, read, Send(0));
    st := Scene([], [Request(0, LockInfo(0, 0), 0)], 0, Waiting(0, 0), Idle);
    assert Do(cfg, read, Send(0)) == st;
  }

  lemma {:induction false} TimelySnoc(cfg: Config, period: int, a: State, steps: seq<Step>, b: State, step: Step)
    requires TimelyRun(cfg, period, a, steps, b) && Wf(cfg, b) && Enabled(cfg, b, step)
    requires Timely(Do(cfg, b, step), period)
    ensures TimelyRun(cfg, period, a, steps + [step], Do(cfg, b, step))
    decreases |steps|
  {
    if |steps| == 0 {
      assert TimelyRun(cfg, period, Do(cfg, b, step), [step][1..], Do(cfg, b, step));
      assert steps + [step] == [step];
    } else {
      TimelySnoc(cfg, period, Do(cfg, a, steps[0]), steps[1..], b, step);
      assert (steps + [step])[1..] == steps[1..] + [step];
    }
  }

  /** A second later node 1 reads the entry that node 0 wrote. */
  lemma ReadLate(duration: nat) returns (steps: seq<Step>, st: State)
    ensures st == Scene([LockInfo(0, 0)], [], 1000, Waiting(0, 0), Read(1000, 1))
    ensures TimelyRun(Pair(duration), 1_000_000_000, Scene([LockInfo(0, 0)], [], 0, Waiting(0, 0), Idle), steps, st)
  {
    var cfg, held := Pair(duration), [LockInfo(0, 0)];
    var start := Scene(held, [], 0, Waiting(0, 0), Idle);
    st, steps := start, [];
    TimelySnoc(cfg, 1_000_000_000, start, steps, st, Tick([1000, 1000]));
    st, steps := Scene(held, [], 1000, Waiting(0, 0), Idle), steps + [Tick([1000, 1000])];
    TimelySnoc(cfg, 1_000_000_000, start, steps, st, Begin(1));
    assert Do(cfg, st, Begin(1)) == Scene(held, [], 1000, Waiting(0, 0), Stamped(1000));
    st, steps := Scene(held, [], 1000, Waiting(0, 0), Stamped(1000)), steps + [Begin(1)];
    TimelySnoc(cfg, 1_000_000_000, start, steps, st, Fetch(1));
    assert Do(cfg, st, Fetch(1)) == Scene(held, [], 1000, Waiting(0, 0), Read(1000, 1));
    st, steps := Scene(held, [], 1000, Waiting(0, 0), Read(1000, 1)), steps + [Fetch(1)];
  }

  /** It finds the lease expired and takes it. */
  lemma TakeOver(duration: nat) returns (steps: seq<Step>, st: State)
    requires duration <= 1000
    ensures TimelyRun(Pair(duration), 1_000_000_000, Scene([LockInfo(0, 0)], [], 0, Waiting(0, 0), Idle), steps, st)
    ensures st.history == [LockInfo(0, 0), LockInfo(1, 1000)]
  {
    var cfg, held := Pair(duration), [LockInfo(0, 0)];
    var start := Scene(held, [], 0, Waiting(0, 0), Idle);
    steps, st := ReadLate(duration);
    var request := Request(1, LockInfo(1, 1000), 1);
    TimelySnoc(cfg, 1_000_000_000, start, steps, st, Send(1));
    assert Do(cfg, st, Send(1)) == Scene(held, [request], 1000, Waiting(0, 0), Waiting(1000, 1));
    st, steps := Scene(held, [request], 1000, Waiting(0, 0), Waiting(1000, 1)), steps + [Send(1)];
    TimelySnoc(cfg, 1_000_000_000, start, steps, st, Arrive(0, false));
    st, steps := Do(cfg, st, Arrive(0, false)), steps + [Arrive(0, false)];
  }

  /** With a lease of at most a second the renewal may come too late. */
  lemma ShortLeaseIsLost(ttl: int)
    requires 0 < Ttl(ttl) < 1_001_000_000
    ensures !Keeps(ttl)
  {
    var duration := Millis(Ttl(ttl));
    var st := FirstWrite(duration);
    var steps, st' := TakeOver(duration);
    var written := Scene([LockInfo(0, 0)], [], 0, Waiting(0, 0), Idle);
    assert Do(Pair(duration), st, Arrive(0, false)) == written;
    assert st'.history[1].node != 0;
    assert !Stays(Pair(duration), 1_000_000_000, written, 0);
    assert Reachable(Pair(duration), ttl, st);
  }

  /**
   A lease that is renewed within the renewal period is kept, whatever the other nodes do, exactly
   if the lease time is at least a second and a millisecond: the period is never shorter than a
   second, and an entry expires on whole milliseconds.
   */
  lemma KeptExactly(ttl: int)
    requires Ttl(ttl) > 0
    ensures Keeps(ttl) <==> Ttl(ttl) >= 1_001_000_000
  {
    if Ttl(ttl) >= 1_001_000_000 {
      RenewedIsKept(ttl);
    } else {
      ShortLeaseIsLost(ttl);
    }
  }
}
