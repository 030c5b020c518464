/**
 The capture log: one change table per watched table and one global table that orders the changes
 waiting to be published. Triggers insert into both, the publisher marks and deletes, a periodic
 cleanup deletes old published rows.
 */
module CaptureLog {
  import opened Wrappers
  import opened Rows

  datatype ChangeState = Pending | Published

  datatype LogRow = LogRow(kind: string, row: Row, createdAt: int, state: ChangeState)

  /** A change table with its AUTOINCREMENT counter. */
  datatype TableLog = TableLog(rows: map<int, LogRow>, nextId: int)

  datatype GlobalRow = GlobalRow(id: int, changeId: int, table: string)

  /** `global` is the global table in the order of its ids, which is how it is scanned. */
  datatype Log = Log(tables: map<string, TableLog>, global: seq<GlobalRow>, nextGlobal: int)

  // ---------- operations as functions ----------

  /** The trigger body: insert the change, then a global row that refers to it. */
  function Capture(log: Log, table: string, kind: string, row: Row, now: int): Log
    requires table in log.tables
  {
    var t := log.tables[table];
    Log(log.tables[table := TableLog(t.rows[t.nextId := LogRow(kind, row, now, Pending)], t.nextId + 1)],
        log.global + [GlobalRow(log.nextGlobal, t.nextId, table)],
        log.nextGlobal + 1)
  }

  function CaptureRow(log: Log, table: string): GlobalRow
    requires table in log.tables
  {
    GlobalRow(log.nextGlobal, log.tables[table].nextId, table)
  }

  /** The pending change a global row refers to, if there is one. */
  function Entry(log: Log, g: GlobalRow): Option<LogRow> {
    if g.table in log.tables && g.changeId in log.tables[g.table].rows
       && log.tables[g.table].rows[g.changeId].state == Pending
    then Some(log.tables[g.table].rows[g.changeId])
    else None
  }

  function DropId(global: seq<GlobalRow>, id: int): seq<GlobalRow> {
    if |global| == 0 then []
    else if global[0].id == id then DropId(global[1..], id)
    else [global[0]] + DropId(global[1..], id)
  }

  /** One transaction: the change becomes published and its global row disappears. */
  function Mark(log: Log, g: GlobalRow): Log {
    var tables :=
      if g.table in log.tables && g.changeId in log.tables[g.table].rows
      then var t := log.tables[g.table];
           log.tables[g.table := t.(rows := t.rows[g.changeId := t.rows[g.changeId].(state := Published)])]
      else log.tables;
    log.(tables := tables, global := DropId(log.global, g.id))
  }

  function Expired(t: TableLog, before: int): set<int> {
    set id | id in t.rows && t.rows[id].state == Published && t.rows[id].createdAt <= before
  }

  function CleanTable(t: TableLog, before: int): TableLog {
    t.(rows := t.rows - Expired(t, before))
  }

  /** Cleanup of the tables in `names`; it stops early when a table fails. */
  function Clean(log: Log, before: int, names: set<string>): Log {
    log.(tables := map name | name in log.tables ::
           if name in names then CleanTable(log.tables[name], before) else log.tables[name])
  }

  /** The oldest changes; a limit of zero means no limit. */
  function Oldest(log: Log, limit: nat): seq<GlobalRow> {
    if limit == 0 || |log.global| <= limit then log.global else log.global[..limit]
  }

  // ---------- pairing ----------

  ghost predicate Ascending(global: seq<GlobalRow>) {
    forall i, j :: 0 <= i < j < |global| ==> global[i].id < global[j].id
  }

  predicate SameTarget(g: GlobalRow, h: GlobalRow) {
    g.table == h.table && g.changeId == h.changeId
  }

  predicate Targets(g: GlobalRow, table: string, id: int) {
    g.table == table && g.changeId == id
  }

  ghost predicate HasPending(log: Log, table: string, id: int) {
    table in log.tables && id in log.tables[table].rows && log.tables[table].rows[id].state == Pending
  }

  ghost predicate Counters(log: Log) {
    Ascending(log.global)
    && (forall g :: g in log.global ==> g.id < log.nextGlobal)
    && (forall table, id :: table in log.tables && id in log.tables[table].rows ==> id < log.tables[table].nextId)
  }

  /**
   Each global row refers to a pending change, no two to the same one, and each pending change has
   a global row.
   */
  ghost predicate Paired(log: Log) {
    && Counters(log)
    && (forall g :: g in log.global ==> Entry(log, g).Some?)
    && (forall i, j :: 0 <= i < j < |log.global| ==> !SameTarget(log.global[i], log.global[j]))
    && (forall table, id :: HasPending(log, table, id) ==>
          exists i :: 0 <= i < |log.global| && Targets(log.global[i], table, id))
  }

  lemma {:induction false} DropIdMembers(global: seq<GlobalRow>, id: int, g: GlobalRow)
    ensures g in DropId(global, id) <==> g in global && g.id != id
  {
    if |global| == 0 {
    } else {
      DropIdMembers(global[1..], id, g);
    }
  }

  /** Dropping by id removes exactly one row of a list with ascending ids. */
  lemma {:induction false} DropIdAt(global: seq<GlobalRow>, i: nat)
    requires Ascending(global) && i < |global|
    ensures DropId(global, global[i].id) == global[..i] + global[i + 1..]
  {
    if i > 0 {
      DropIdAt(global[1..], i - 1);
      assert global[..i] + global[i + 1..] == [global[0]] + (global[1..][..i - 1] + global[1..][i..]);
    } else {
      DropIdAbsent(global[1..], global[0].id);
    }
  }

  lemma {:induction false} DropIdAbsent(global: seq<GlobalRow>, id: int)
    requires forall g :: g in global ==> g.id != id
    ensures DropId(global, id) == global
  {
    if |global| == 0 {
    } else {
      DropIdAbsent(global[1..], id);
    }
  }

  lemma CaptureKeepsPaired(log: Log, table: string, kind: string, row: Row, now: int)
    requires Paired(log) && table in log.tables
    ensures Paired(Capture(log, table, kind, row, now))
  {
    var log' := Capture(log, table, kind, row, now);
    var g := CaptureRow(log, table);
    forall h | h in log.global ensures Entry(log', h) == Entry(log, h) && !SameTarget(h, g) {
      assert Entry(log, h).Some?;
    }
    assert Entry(log', g).Some?;
    forall i, j | 0 <= i < j < |log'.global|
      ensures !SameTarget(log'.global[i], log'.global[j]) && log'.global[i].id < log'.global[j].id
    {
      assert i < |log.global| && log.global[i] in log.global;
    }
    forall t, id | HasPending(log', t, id)
      ensures exists i :: 0 <= i < |log'.global| && Targets(log'.global[i], t, id)
    {
      if t == table && id == g.changeId {
        assert Targets(log'.global[|log.global|], t, id);
      } else {
        assert HasPending(log, t, id);
        var i :| 0 <= i < |log.global| && Targets(log.global[i], t, id);
        assert Targets(log'.global[i], t, id);
      }
    }
  }

  /** What marking one global row does to the others. */
  lemma MarkOthers(log: Log, i: nat)
    requires Paired(log) && i < |log.global|
    ensures Mark(log, log.global[i]).global == log.global[..i] + log.global[i + 1..]
    ensures forall h :: h in log.global && h != log.global[i] ==> Entry(Mark(log, log.global[i]), h) == Entry(log, h)
    ensures forall t, id :: HasPending(Mark(log, log.global[i]), t, id) ==>
              HasPending(log, t, id) && !Targets(log.global[i], t, id)
  {
    var g := log.global[i];
    DropIdAt(log.global, i);
    assert Entry(log, g).Some?;
    forall h | h in log.global && h != g ensures Entry(Mark(log, g), h) == Entry(log, h) {
      var j :| 0 <= j < |log.global| && log.global[j] == h;
      assert Entry(log, h).Some?;
      assert if i < j then !SameTarget(g, h) else !SameTarget(h, g);
    }
  }

  /** Removing one entry keeps ids ascending and targets distinct. */
  lemma RemovalKeepsOrder(global: seq<GlobalRow>, i: nat)
    requires i < |global| && Ascending(global)
    requires forall j, k :: 0 <= j < k < |global| ==> !SameTarget(global[j], global[k])
    ensures var rest := global[..i] + global[i + 1..];
            Ascending(rest) && forall j, k :: 0 <= j < k < |rest| ==> !SameTarget(rest[j], rest[k])
  {
  }

  lemma MarkKeepsPaired(log: Log, i: nat)
    requires Paired(log) && i < |log.global|
    ensures Paired(Mark(log, log.global[i]))
  {
    var g := log.global[i];
    var log' := Mark(log, g);
    MarkOthers(log, i);
    RemovalKeepsOrder(log.global, i);
    assert Entry(log, g).Some?;
    forall h | h in log'.global ensures h in log.global && h != g && Entry(log', h).Some? {
      DropIdMembers(log.global, g.id, h);
      assert Entry(log, h).Some?;
    }
    forall t, id | HasPending(log', t, id)
      ensures exists j :: 0 <= j < |log'.global| && Targets(log'.global[j], t, id)
    {
      StillTargeted(log.global, i, t, id);
    }
  }

  /** A change that another row stands for keeps that row when row `i` goes. */
  lemma StillTargeted(global: seq<GlobalRow>, i: nat, t: string, id: int)
    requires i < |global| && !Targets(global[i], t, id)
    requires exists j :: 0 <= j < |global| && Targets(global[j], t, id)
    ensures var rest := global[..i] + global[i + 1..];
            exists j :: 0 <= j < |rest| && Targets(rest[j], t, id)
  {
    var rest := global[..i] + global[i + 1..];
    var j :| 0 <= j < |global| && Targets(global[j], t, id);
    assert rest[if j < i then j else j - 1] == global[j];
  }

  lemma CleanKeepsPaired(log: Log, before: int, names: set<string>)
    requires Paired(log)
    ensures Paired(Clean(log, before, names))
    ensures forall g :: Entry(Clean(log, before, names), g) == Entry(log, g)
  {
    var log' := Clean(log, before, names);
    forall g ensures Entry(log', g) == Entry(log, g) {
    }
    forall t, id | HasPending(log', t, id) ensures HasPending(log, t, id) {
    }
  }

  /**
   How long a change is kept: one captured at `now` and marked published is there after a cleanup
   of its table exactly if it was captured later than `before`.
   */
  lemma KeptSince(log: Log, table: string, kind: string, row: Row, now: int, before: int, names: set<string>)
    requires table in log.tables && table in names
    ensures var g := CaptureRow(log, table);
            var published := Mark(Capture(log, table, kind, row, now), g);
            g.changeId in Clean(published, before, names).tables[table].rows <==> now > before
  {
  }

  /** A change that waits is kept by every cleanup, however old it is. */
  lemma WaitingIsKept(log: Log, table: string, kind: string, row: Row, now: int, before: int, names: set<string>)
    requires table in log.tables
    ensures Entry(Clean(Capture(log, table, kind, row, now), before, names), CaptureRow(log, table))
         == Some(LogRow(kind, row, now, Pending))
  {
  }

  /** Cleaning twice is cleaning once up to the later time, so a repeated cleanup removes nothing more. */
  lemma CleanTwice(log: Log, a: int, b: int, names: set<string>)
    ensures Clean(Clean(log, a, names), b, names) == Clean(log, if a < b then b else a, names)
  {
    var once, twice := Clean(log, if a < b then b else a, names), Clean(Clean(log, a, names), b, names);
    forall name | name in log.tables ensures twice.tables[name] == once.tables[name] {
      assert twice.tables[name].rows == once.tables[name].rows;
    }
  }

  // ---------- the abstract queue ----------

  /** The event that publishing a global row hands over. */
  function EventOf(log: Log, g: GlobalRow): Event {
    match Entry(log, g)
    case Some(r) => Event(g.changeId, r.kind, g.table, r.row, "")
    case None => Event(g.changeId, "", g.table, map[], "")
  }

  /** The captured changes waiting to be published, in order. */
  function Queue(log: Log): (q: seq<Event>)
    ensures |q| == |log.global| && forall i :: 0 <= i < |q| ==> q[i] == EventOf(log, log.global[i])
  {
    seq(|log.global|, i requires 0 <= i < |log.global| => EventOf(log, log.global[i]))
  }

  /** Capturing appends the change to the queue. */
  lemma QueueOfCapture(log: Log, table: string, kind: string, row: Row, now: int)
    requires Paired(log) && table in log.tables
    ensures Queue(Capture(log, table, kind, row, now))
         == Queue(log) + [Event(log.tables[table].nextId, kind, table, row, "")]
  {
  }

  /** A log without its i-th global row that has kept the other changes. */
  lemma QueueWithout(log: Log, log': Log, i: nat)
    requires i < |log.global| && log'.global == log.global[..i] + log.global[i + 1..]
    requires forall k :: 0 <= k < |log.global| && k != i ==>
               EventOf(log', log.global[k]) == EventOf(log, log.global[k])
    ensures Queue(log') == Queue(log)[..i] + Queue(log)[i + 1..]
  {
  }

  /** Marking a change removes it, and only it, from the queue. */
  lemma QueueOfMark(log: Log, i: nat)
    requires Paired(log) && i < |log.global|
    ensures Queue(Mark(log, log.global[i])) == Queue(log)[..i] + Queue(log)[i + 1..]
  {
    MarkOthers(log, i);
    var g, marked := log.global[i], Mark(log, log.global[i]);
    forall k | 0 <= k < |log.global| && k != i ensures EventOf(marked, log.global[k]) == EventOf(log, log.global[k]) {
      assert if k < i then log.global[k].id < g.id else g.id < log.global[k].id;
      assert Entry(marked, log.global[k]) == Entry(log, log.global[k]);
    }
    QueueWithout(log, marked, i);
  }

  /** Cleanup leaves the queue alone. */
  lemma QueueOfClean(log: Log, before: int, names: set<string>)
    requires Paired(log)
    ensures Queue(Clean(log, before, names)) == Queue(log)
  {
  }

  // ---------- runs with a publisher ----------

  /** How handing one change over goes. */
  datatype Outcome =
    // reading the change row failed
    | ScanError
    // not ready to publish, or cancelled
    | Refused
    // published, or failed with another error; `marked` says whether marking succeeded
    | Handed(marked: bool)

  /**
   `remaining` is what the publisher holding the lock has still to go through, if one is running;
   `handed` and `captured` record history.
   */
  datatype State = State(log: Log, remaining: Option<seq<GlobalRow>>, handed: seq<GlobalRow>, captured: seq<GlobalRow>)

  datatype Step =
    | DoCapture(table: string, kind: string, row: Row, now: int)
    | DoClean(before: int, names: set<string>)
    | StartPublish(limit: nat)
    | PublishNext(outcome: Outcome)
    | Crash

  predicate Enabled(st: State, step: Step) {
    match step
    case DoCapture(table, _, _, _) => table in st.log.tables
    case DoClean(_, _) => true
    case StartPublish(_) => st.remaining == None && |st.log.global| > 0
    case PublishNext(_) => st.remaining.Some? && |st.remaining.value| > 0
    case Crash => true
  }

  function Rest(changes: seq<GlobalRow>): Option<seq<GlobalRow>>
    requires |changes| > 0
  {
    if |changes| == 1 then None else Some(changes[1..])
  }

  /** Nothing stops captures and cleanups from happening between two changes of one publish. */
  function Do(st: State, step: Step): State
    requires Enabled(st, step)
  {
    match step
    case DoCapture(table, kind, row, now) =>
      st.(log := Capture(st.log, table, kind, row, now), captured := st.captured + [CaptureRow(st.log, table)])
    case DoClean(before, names) => st.(log := Clean(st.log, before, names))
    case StartPublish(limit) => st.(remaining := Some(Oldest(st.log, limit)))
    case PublishNext(outcome) =>
      var g := st.remaining.value[0];
      (match outcome
       case ScanError => st.(remaining := None)
       case Refused => st.(remaining := None)
       case Handed(marked) =>
         State(if marked then Mark(st.log, g) else st.log, Rest(st.remaining.value), st.handed + [g], st.captured))
    case Crash => st.(remaining := None)
  }

  /** Change tables exist and are empty. */
  ghost predicate Fresh(st: State) {
    && (forall t :: t in st.log.tables ==> st.log.tables[t].rows == map[])
    && st.log.global == [] && st.remaining == None && st.handed == [] && st.captured == []
  }

  ghost predicate IsRun(st: State, steps: seq<Step>, st': State)
    decreases |steps|
  {
    if |steps| == 0 then st == st'
    else Enabled(st, steps[0]) && IsRun(Do(st, steps[0]), steps[1..], st')
  }

  /** The publisher's list is made of live global rows in order, and every captured change is waiting or handed. */
  ghost predicate Inv(st: State) {
    && Paired(st.log)
    && (st.remaining.Some? ==>
         Ascending(st.remaining.value) && forall g :: g in st.remaining.value ==> g in st.log.global)
    && (forall g :: g in st.captured ==> g in st.log.global || g in st.handed)
    && (forall g :: g in st.log.global ==> g in st.captured)
  }

  lemma PublishNextKeepsInv(st: State, marked: bool)
    requires Inv(st) && Enabled(st, PublishNext(Handed(marked)))
    ensures Inv(Do(st, PublishNext(Handed(marked))))
  {
    var st' := Do(st, PublishNext(Handed(marked)));
    var g := st.remaining.value[0];
    assert g in st.remaining.value;
    assert st'.handed[|st.handed|] == g;
    assert st'.remaining.Some? ==>
        forall i :: 0 <= i < |st'.remaining.value| ==> st'.remaining.value[i] == st.remaining.value[i + 1];
    if marked {
      var i :| 0 <= i < |st.log.global| && st.log.global[i] == g;
      MarkKeepsPaired(st.log, i);
      forall h ensures h in st'.log.global <==> h in st.log.global && h.id != g.id {
        DropIdMembers(st.log.global, g.id, h);
      }
      forall h | h in st.captured ensures h in st'.log.global || h in st'.handed {
        if h in st.log.global && h.id == g.id {
          SameIdSameRow(st.log.global, g, h);
        }
      }
    }
  }

  lemma SameIdSameRow(global: seq<GlobalRow>, g: GlobalRow, h: GlobalRow)
    requires Ascending(global) && g in global && h in global && g.id == h.id
    ensures g == h
  {
    var i :| 0 <= i < |global| && global[i] == g;
    var j :| 0 <= j < |global| && global[j] == h;
    assert i == j;
  }

  lemma StepKeepsInv(st: State, step: Step)
    requires Inv(st) && Enabled(st, step)
    ensures Inv(Do(st, step))
  {
    match step
    case DoCapture(table, kind, row, now) =>
      CaptureKeepsPaired(st.log, table, kind, row, now);
    case DoClean(before, names) => CleanKeepsPaired(st.log, before, names);
    case StartPublish(limit) =>
    case PublishNext(outcome) =>
      if outcome.Handed? {
        PublishNextKeepsInv(st, outcome.marked);
      }
    case Crash =>
  }

  lemma {:induction false} RunKeepsInv(st: State, steps: seq<Step>, st': State)
    requires Inv(st) && IsRun(st, steps, st')
    ensures Inv(st')
    decreases |steps|
  {
    if |steps| == 0 {
    } else {
      StepKeepsInv(st, steps[0]);
      RunKeepsInv(Do(st, steps[0]), steps[1..], st');
    }
  }

  /**
   In every reachable state global rows and pending changes are paired one to one, whatever
   captures, cleanups, failed markings, crashes and restarts happened.
   */
  lemma CapturePairing(start: State, steps: seq<Step>, st: State)
    requires Fresh(start) && IsRun(start, steps, st)
    ensures Paired(st.log)
    ensures forall g :: g in st.captured ==> g in st.log.global || g in st.handed
  {
    RunKeepsInv(start, steps, st);
  }

  /** The publisher always finds the change a global row refers to, so its panic cannot happen. */
  lemma PanicUnreachable(start: State, steps: seq<Step>, st: State)
    requires Fresh(start) && IsRun(start, steps, st)
    requires st.remaining.Some? && |st.remaining.value| > 0
    ensures Entry(st.log, st.remaining.value[0]).Some?
  {
    RunKeepsInv(start, steps, st);
    assert st.remaining.value[0] in st.remaining.value;
  }

  // ---------- first in, first out ----------

  /** Every marking along the run succeeds. */
  ghost predicate AllMarked(steps: seq<Step>) {
    forall i :: 0 <= i < |steps| && steps[i].PublishNext? && steps[i].outcome.Handed? ==> steps[i].outcome.marked
  }

  ghost predicate Fifo(st: State) {
    st.handed + st.log.global == st.captured
    && (st.remaining.Some? ==> st.remaining.value <= st.log.global)
  }

  /** Handing over the first waiting change and marking it moves it from the queue to the history. */
  lemma HandedMoves(st: State)
    requires Ascending(st.log.global) && Enabled(st, PublishNext(Handed(true)))
    requires |st.log.global| > 0 && st.remaining.value[0] == st.log.global[0]
    ensures var st' := Do(st, PublishNext(Handed(true)));
            && st'.log.global == st.log.global[1..]
            && st'.handed == st.handed + [st.log.global[0]]
            && st'.captured == st.captured && st'.remaining == Rest(st.remaining.value)
  {
    DropIdAt(st.log.global, 0);
    assert st.log.global[..0] + st.log.global[1..] == st.log.global[1..];
  }

  lemma HandedKeepsFifo(st: State)
    requires Ascending(st.log.global) && Fifo(st) && Enabled(st, PublishNext(Handed(true)))
    ensures Fifo(Do(st, PublishNext(Handed(true))))
  {
    HandedMoves(st);
  }

  lemma StepKeepsFifo(st: State, step: Step)
    requires Inv(st) && Fifo(st) && Enabled(st, step)
    requires step.PublishNext? && step.outcome.Handed? ==> step.outcome.marked
    ensures Fifo(Do(st, step))
  {
    if step.DoCapture? {
    } else if step.PublishNext? && step.outcome.Handed? {
      HandedKeepsFifo(st);
    }
  }

  lemma {:induction false} RunKeepsFifo(st: State, steps: seq<Step>, st': State)
    requires Inv(st) && Fifo(st) && IsRun(st, steps, st') && AllMarked(steps)
    ensures Fifo(st')
    decreases |steps|
  {
    if |steps| == 0 {
    } else {
      StepKeepsInv(st, steps[0]);
      StepKeepsFifo(st, steps[0]);
      RunKeepsFifo(Do(st, steps[0]), steps[1..], st');
    }
  }

  lemma FreshInv(st: State)
    requires Fresh(st)
    ensures Inv(st) && Fifo(st)
  {
  }

  /**
   The publisher refines a first-in-first-out queue: when every marking succeeds, the changes
   handed over are, in order and without repeats, a prefix of the captured ones, and the global
   table is exactly the rest.
   */
  lemma PublisherIsFifo(start: State, steps: seq<Step>, st: State)
    requires Fresh(start) && IsRun(start, steps, st) && AllMarked(steps)
    ensures st.handed + st.log.global == st.captured
  {
    FreshInv(start);
    RunKeepsFifo(start, steps, st);
  }

  // ---------- draining ----------

  /** One publish without refusals: every scanned change is marked. */
  function MarkAll(log: Log, changes: seq<GlobalRow>): Log
    decreases |changes|
  {
    if |changes| == 0 then log else MarkAll(Mark(log, changes[0]), changes[1..])
  }

  function Passes(log: Log, limit: nat, calls: nat): Log
    decreases calls
  {
    if calls == 0 then log else Passes(MarkAll(log, Oldest(log, limit)), limit, calls - 1)
  }

  lemma FirstSlices<T>(xs: seq<T>, n: nat)
    requires 0 < n <= |xs|
    ensures xs[..n][0] == xs[0] && xs[..n][1..] == xs[1..][..n - 1]
    ensures xs[1..][n - 1..] == xs[n..] && [xs[0]] + xs[1..][..n - 1] == xs[..n]
  {
  }

  /** Marking the oldest change leaves the others, in order. */
  lemma MarkFirst(log: Log)
    requires Ascending(log.global) && |log.global| > 0
    ensures Mark(log, log.global[0]).global == log.global[1..] && Ascending(log.global[1..])
  {
    DropIdAt(log.global, 0);
    assert log.global[..0] == [];
  }

  lemma {:induction false} MarkAllPrefix(log: Log, n: nat)
    requires Ascending(log.global) && n <= |log.global|
    ensures MarkAll(log, log.global[..n]).global == log.global[n..]
    decreases n
  {
    if n == 0 {
    } else {
      MarkFirst(log);
      FirstSlices(log.global, n);
      MarkAllPrefix(Mark(log, log.global[0]), n - 1);
    }
  }

  function Skip<T>(xs: seq<T>, n: nat): seq<T> {
    if n <= |xs| then xs[n..] else []
  }

  function Total(calls: nat, limit: nat): nat {
    if calls == 0 then 0 else limit + Total(calls - 1, limit)
  }

  lemma {:induction false} TotalIsProduct(calls: nat, limit: nat)
    ensures Total(calls, limit) == calls * limit
  {
    if calls == 0 {
    } else {
      TotalIsProduct(calls - 1, limit);
    }
  }

  /** One publish removes the oldest `limit` changes, or all of them. */
  lemma OnePass(log: Log, limit: nat)
    requires Ascending(log.global) && limit > 0
    ensures MarkAll(log, Oldest(log, limit)).global == Skip(log.global, limit)
  {
    var n := if |log.global| <= limit then |log.global| else limit;
    assert Oldest(log, limit) == log.global[..n];
    MarkAllPrefix(log, n);
  }

  lemma {:induction false} Drained(log: Log, limit: nat, calls: nat)
    requires Ascending(log.global) && limit > 0
    ensures Passes(log, limit, calls).global == Skip(log.global, Total(calls, limit))
    decreases calls
  {
    if calls == 0 {
    } else {
      var log', rest := MarkAll(log, Oldest(log, limit)), Total(calls - 1, limit);
      OnePass(log, limit);
      Drained(log', limit, calls - 1);
      assert Total(calls, limit) == limit + rest;
    }
  }

  /**
   With no new captures and no refusals, `calls` publishes of at most `limit` changes leave
   exactly the changes after the first `calls * limit`.
   */
  lemma DrainRate(log: Log, limit: nat, calls: nat)
    requires Paired(log) && limit > 0
    ensures Passes(log, limit, calls).global == Skip(log.global, calls * limit)
  {
    Drained(log, limit, calls);
    TotalIsProduct(calls, limit);
  }

  /** The queue is empty after exactly the number of publishes that `ceil(n / limit)` gives. */
  lemma DrainsInCeiling(log: Log, limit: nat, calls: nat)
    requires Paired(log) && limit > 0
    ensures Passes(log, limit, calls).global == [] <==> calls >= (|log.global| + limit - 1) / limit
  {
    DrainRate(log, limit, calls);
    CeilingBound(|log.global|, limit, calls);
  }

  lemma CeilingBound(n: nat, limit: nat, calls: nat)
    requires limit > 0
    ensures calls * limit >= n <==> calls >= (n + limit - 1) / limit
  {
    var q := (n + limit - 1) / limit;
    var r := (n + limit - 1) % limit;
    assert n + limit - 1 == q * limit + r;
    if calls >= q {
      assert calls * limit >= q * limit;
    } else {
      assert calls * limit <= (q - 1) * limit == q * limit - limit;
    }
  }
}
