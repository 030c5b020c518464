/** The capture log as the object the running node works on, and one whole publish over it. */
module Publisher {
  import opened Wrappers
  import opened Rows
  import opened CaptureLog

  /** What one publish leaves behind: the log, the changes handed over, and whether it panicked. */
  datatype Pass = Pass(log: Log, handed: seq<GlobalRow>, panicked: bool)

  function OutcomeAt(outcomes: seq<Outcome>): Outcome {
    if |outcomes| > 0 then outcomes[0] else Handed(true)
  }

  function Later(outcomes: seq<Outcome>): seq<Outcome> {
    if |outcomes| > 0 then outcomes[1..] else []
  }

  /** Going through scanned changes one by one, with the given outcomes. */
  function RunPass(log: Log, changes: seq<GlobalRow>, outcomes: seq<Outcome>): Pass
    decreases |changes|
  {
    if |changes| == 0 || OutcomeAt(outcomes) == ScanError then Pass(log, [], false)
    else if Entry(log, changes[0]) == None then Pass(log, [], true)
    else if OutcomeAt(outcomes) == Refused then Pass(log, [], false)
    else
      var marked := if OutcomeAt(outcomes).marked then Mark(log, changes[0]) else log;
      var rest := RunPass(marked, changes[1..], Later(outcomes));
      rest.(handed := [changes[0]] + rest.handed)
  }

  /** A change found and not refused: the pass goes on with the rest. */
  lemma PassGoesOn(log: Log, changes: seq<GlobalRow>, outcomes: seq<Outcome>, done: seq<GlobalRow>)
    requires |changes| > 0 && OutcomeAt(outcomes).Handed? && Entry(log, changes[0]).Some?
    ensures var marked := if OutcomeAt(outcomes).marked then Mark(log, changes[0]) else log;
            var rest := RunPass(marked, changes[1..], Later(outcomes));
            var pass := RunPass(log, changes, outcomes);
            && pass.log == rest.log && pass.panicked == rest.panicked
            && done + pass.handed == done + [changes[0]] + rest.handed
  {
  }

  /**
   On a paired log a publish never panics, and it is a run of the capture log's publisher: the
   same log, the same changes handed over, the lock released at the end.
   */
  lemma {:induction false} PassIsRun(st: State, outcomes: seq<Outcome>) returns (steps: seq<Step>, st': State)
    requires Inv(st) && st.remaining.Some? && |st.remaining.value| > 0
    ensures IsRun(st, steps, st') && Inv(st')
    ensures var pass := RunPass(st.log, st.remaining.value, outcomes);
            !pass.panicked && st' == State(pass.log, None, st.handed + pass.handed, st.captured)
    decreases |st.remaining.value|
  {
    var changes, outcome := st.remaining.value, OutcomeAt(outcomes);
    assert changes[0] in changes;
    var step := PublishNext(outcome);
    var st1 := Do(st, step);
    StepKeepsInv(st, step);
    assert IsRun(st1, [], st1);
    if outcome.Handed? {
      PassGoesOn(st.log, changes, outcomes, st.handed);
      if |changes| > 1 {
        steps, st' := PassIsRun(st1, Later(outcomes));
        steps := [step] + steps;
      } else {
        steps, st' := [step], st1;
        assert RunPass(st1.log, changes[1..], Later(outcomes)) == Pass(st1.log, [], false);
      }
    } else {
      steps, st' := [step], st1;
    }
  }

  /** A publish over the oldest changes of a paired log neither panics nor unpairs it. */
  lemma PassIsSafe(log: Log, changes: seq<GlobalRow>, outcomes: seq<Outcome>)
    requires Paired(log) && changes <= log.global
    ensures !RunPass(log, changes, outcomes).panicked && Paired(RunPass(log, changes, outcomes).log)
  {
    if |changes| > 0 {
      assert Ascending(changes);
      var _, st' := PassIsRun(State(log, Some(changes), [], log.global), outcomes);
    }
  }

  /** Handing over and marking the first of some changes. */
  lemma FirstIsHanded(log: Log, changes: seq<GlobalRow>)
    requires Paired(log) && |changes| > 0 && changes[0] in log.global
    ensures var rest := RunPass(Mark(log, changes[0]), changes[1..], []);
            RunPass(log, changes, []) == rest.(handed := [changes[0]] + rest.handed)
  {
  }

  /** A publish in which nothing fails and nothing is refused marks everything it scanned. */
  lemma {:induction false} UndisturbedPass(log: Log, n: nat)
    requires Paired(log) && n <= |log.global|
    ensures RunPass(log, log.global[..n], []) == Pass(MarkAll(log, log.global[..n]), log.global[..n], false)
    decreases n
  {
    if n == 0 {
    } else {
      MarkKeepsPaired(log, 0);
      MarkFirst(log);
      FirstSlices(log.global, n);
      UndisturbedPass(Mark(log, log.global[0]), n - 1);
      FirstIsHanded(log, log.global[..n]);
    }
  }

  function TotalExpired(log: Log, before: int, names: seq<string>): nat {
    if |names| == 0 then 0
    else
      var last := |names| - 1;
      TotalExpired(log, before, names[..last])
      + (if names[last] in log.tables then |Expired(log.tables[names[last]], before)| else 0)
  }

  /** How many changes the listed tables hold. */
  function TotalRows(log: Log, names: seq<string>): nat {
    if |names| == 0 then 0
    else
      var last := |names| - 1;
      TotalRows(log, names[..last]) + (if names[last] in log.tables then |log.tables[names[last]].rows| else 0)
  }

  /** Cleaning a table removes as many changes as have expired in it. */
  lemma CleanTableCounts(t: TableLog, before: int)
    ensures |t.rows| == |CleanTable(t, before).rows| + |Expired(t, before)|
  {
    var kept := CleanTable(t, before).rows;
    assert t.rows.Keys == kept.Keys + Expired(t, before);
    assert kept.Keys !! Expired(t, before);
  }

  /** Tables that a cleanup does not list keep all their changes. */
  lemma {:induction false} TotalRowsKept(log: Log, before: int, cleaned: set<string>, more: string, names: seq<string>)
    requires more !in names
    ensures TotalRows(Clean(log, before, cleaned + {more}), names) == TotalRows(Clean(log, before, cleaned), names)
    decreases |names|
  {
    if |names| == 0 {
    } else {
      TotalRowsKept(log, before, cleaned, more, names[..|names| - 1]);
    }
  }

  /** The number a cleanup reports is the number of changes it removes. */
  lemma {:induction false} CleanupCounts(log: Log, before: int, order: seq<string>)
    requires forall i, j :: 0 <= i < j < |order| ==> order[i] != order[j]
    ensures TotalRows(log, order)
         == TotalRows(Clean(log, before, NamesIn(order)), order) + TotalExpired(log, before, order)
    decreases |order|
  {
    if |order| == 0 {
    } else {
      var last := |order| - 1;
      CleanupCounts(log, before, order[..last]);
      TotalRowsKept(log, before, NamesIn(order[..last]), order[last], order[..last]);
      assert NamesIn(order) == NamesIn(order[..last]) + {order[last]};
      if order[last] in log.tables {
        CleanTableCounts(log.tables[order[last]], before);
      }
    }
  }

  function NamesIn(xs: seq<string>): set<string> {
    set x | x in xs
  }

  /** On a paired log cleaning loses no waiting change. */
  lemma CleanedEntries(log: Log, before: int, names: set<string>)
    ensures Paired(log) ==> forall change :: Entry(Clean(log, before, names), change) == Entry(log, change)
  {
  }

  /** Cleaning one more table. */
  lemma CleanOneMore(log: Log, before: int, order: seq<string>, i: nat)
    requires i < |order| && order[i] in log.tables && order[i] !in order[..i]
    ensures var part := Clean(log, before, NamesIn(order[..i]));
            order[i] in part.tables && part.tables[order[i]] == log.tables[order[i]]
            && Clean(log, before, NamesIn(order[..i + 1]))
               == part.(tables := part.tables[order[i] := CleanTable(log.tables[order[i]], before)])
    ensures TotalExpired(log, before, order[..i + 1])
         == TotalExpired(log, before, order[..i]) + |Expired(log.tables[order[i]], before)|
  {
    assert order[..i + 1][..i] == order[..i];
    assert NamesIn(order[..i + 1]) == NamesIn(order[..i]) + {order[i]};
  }

  class ChangeLog {
    var tables: map<string, TableLog>
    var global: seq<GlobalRow>
    var nextGlobal: int
    var publishing: bool

    ghost function View(): Log
      reads this
    {
      Log(tables, global, nextGlobal)
    }

    /** Installing the capture tables for the watched tables. */
    constructor (names: set<string>)
      ensures View() == Log(map name | name in names :: TableLog(map[], 1), [], 1) && !publishing
      ensures Paired(View())
    {
      tables := map name | name in names :: TableLog(map[], 1);
      global := [];
      nextGlobal := 1;
      publishing := false;
    }

    /** The trigger, on a connection that is not the replicator's own. */
    method Trigger(table: string, kind: string, row: Row, now: int)
      requires table in tables
      modifies this`tables, this`global, this`nextGlobal
      ensures View() == Capture(old(View()), table, kind, row, now)
      ensures old(Paired(View())) ==> Paired(View())
    {
      if Paired(View()) {
        CaptureKeepsPaired(View(), table, kind, row, now);
      }
      var t := tables[table];
      tables := tables[table := TableLog(t.rows[t.nextId := LogRow(kind, row, now, Pending)], t.nextId + 1)];
      global := global + [GlobalRow(nextGlobal, t.nextId, table)];
      nextGlobal := nextGlobal + 1;
    }

    method GetGlobalChanges(limit: nat) returns (entries: seq<GlobalRow>)
      ensures entries == Oldest(View(), limit)
      ensures entries <= global && (limit == 0 ==> entries == global)
      ensures limit > 0 ==> |entries| == if |global| < limit then |global| else limit
    {
      if limit == 0 || |global| <= limit {
        return global;
      }
      return global[..limit];
    }

    method GetChangeEntry(change: GlobalRow) returns (entry: Option<LogRow>)
      ensures entry == Entry(View(), change)
      ensures Paired(View()) && change in global ==> entry.Some?
    {
      if change.table in tables && change.changeId in tables[change.table].rows
         && tables[change.table].rows[change.changeId].state == Pending
      {
        return Some(tables[change.table].rows[change.changeId]);
      }
      return None;
    }

    /** One transaction; `ok` says whether it commits. */
    method MarkChangePublished(change: GlobalRow, ok: bool)
      modifies this`tables, this`global
      ensures View() == if ok then Mark(old(View()), change) else old(View())
    {
      if !ok {
        return;
      }
      if change.table in tables && change.changeId in tables[change.table].rows {
        var t := tables[change.table];
        tables := tables[change.table :=
          t.(rows := t.rows[change.changeId := t.rows[change.changeId].(state := Published)])];
      }
      global := DropId(global, change.id);
    }

    /** Deletes the published changes of one table. */
    method CleanOne(name: string, before: int) returns (count: nat)
      requires name in tables
      modifies this`tables
      ensures tables == old(tables)[name := CleanTable(old(tables)[name], before)]
      ensures count == |Expired(old(tables)[name], before)|
    {
      count := |Expired(tables[name], before)|;
      tables := tables[name := CleanTable(tables[name], before)];
    }

    /** Table by table, up to the one at position `failsAt`. */
    method Sweep(before: int, order: seq<string>, failsAt: nat) returns (total: nat, done: nat)
      requires forall i, j :: 0 <= i < j < |order| ==> order[i] != order[j]
      requires forall name :: name in order ==> name in tables
      modifies this`tables
      ensures done == if |order| <= failsAt then |order| else failsAt
      ensures View() == Clean(old(View()), before, NamesIn(order[..done]))
      ensures total == TotalExpired(old(View()), before, order[..done])
    {
      ghost var start := View();
      total, done := 0, 0;
      while done < |order| && done != failsAt
        invariant 0 <= done <= |order| && done <= failsAt
        invariant View() == Clean(start, before, NamesIn(order[..done]))
        invariant total == TotalExpired(start, before, order[..done])
      {
        assert order[done] in order;
        CleanOneMore(start, before, order, done);
        var count := CleanOne(order[done], before);
        total := total + count;
        done := done + 1;
      }
    }

    /**
     Deletes published changes created at or before `before`, table by table in iteration order;
     the table at position `failsAt` cannot be cleaned and ends the sweep.
     */
    method CleanupChangeLogs(before: int, order: seq<string>, failsAt: nat) returns (total: nat, ok: bool)
      requires forall i, j :: 0 <= i < j < |order| ==> order[i] != order[j]
      requires forall name :: name in order <==> name in tables
      modifies this`tables
      ensures ok <==> |order| <= failsAt
      ensures View() == Clean(old(View()), before, NamesIn(order[..if ok then |order| else failsAt]))
      ensures total == if ok then TotalExpired(old(View()), before, order) else 0
      ensures forall change :: old(Paired(View())) ==> Entry(View(), change) == old(Entry(View(), change))
    {
      ghost var start := View();
      var done;
      total, done := Sweep(before, order, failsAt);
      ok := done == |order|;
      CleanedEntries(start, before, NamesIn(order[..done]));
      assert order[..|order|] == order;
      if !ok {
        total := 0;
      }
    }

    /** One scanned change: looked up, handed over, and marked if marking succeeds. */
    method PublishChange(change: GlobalRow, outcome: Outcome) returns (handed: bool, panicked: bool)
      modifies this`tables, this`global
      ensures panicked <==> outcome != ScanError && Entry(old(View()), change) == None
      ensures handed <==> outcome.Handed? && Entry(old(View()), change).Some?
      ensures View() == if handed && outcome.marked then Mark(old(View()), change) else old(View())
    {
      handed, panicked := false, false;
      if outcome == ScanError {
        return;
      }
      var entry := GetChangeEntry(change);
      if entry == None {
        return false, true;
      }
      if outcome == Refused {
        return;
      }
      MarkChangePublished(change, outcome.marked);
      handed := true;
    }

    /** Goes through scanned changes one by one. */
    method GoThrough(changes: seq<GlobalRow>, outcomes: seq<Outcome>) returns (handed: seq<GlobalRow>, panicked: bool)
      modifies this`tables, this`global
      ensures Pass(View(), handed, panicked) == RunPass(old(View()), changes, outcomes)
    {
      handed, panicked := [], false;
      ghost var spec := RunPass(View(), changes, outcomes);
      var i, script := 0, outcomes;
      while i < |changes|
        invariant 0 <= i <= |changes| && !panicked
        invariant Continues(spec, View(), changes[i..], script, handed)
      {
        assert changes[i..][0] == changes[i] && changes[i..][1..] == changes[i + 1..];
        ghost var before := View();
        var done;
        done, panicked := PublishChange(changes[i], OutcomeAt(script));
        if !done {
          break;
        }
        ContinuesOn(spec, before, changes[i..], script, handed);
        handed := handed + [changes[i]];
        script := Later(script);
        i := i + 1;
      }
    }

    /**
     One publish: takes the lock, scans the oldest changes and goes through them with the given
     outcomes. On a paired log it never panics and leaves a paired log.
     */
    method PublishChangeLog(limit: nat, outcomes: seq<Outcome>) returns (handed: seq<GlobalRow>, panicked: bool)
      modifies this
      ensures publishing == old(publishing)
      ensures old(publishing) ==> View() == old(View()) && handed == [] && !panicked
      ensures !old(publishing) ==>
                Pass(View(), handed, panicked) == RunPass(old(View()), Oldest(old(View()), limit), outcomes)
      ensures old(Paired(View())) ==> !panicked && Paired(View())
    {
      handed, panicked := [], false;
      ghost var start := View();
      if publishing {
        return;
      }
      if |global| == 0 {
        return;
      }
      publishing := true;
      var changes := GetGlobalChanges(limit);
      handed, panicked := GoThrough(changes, outcomes);
      publishing := false;
      if Paired(start) {
        PassIsSafe(start, changes, outcomes);
      }
    }
  }

  /** What is left of a publish after some changes have been handed over. */
  ghost predicate Continues(spec: Pass, log: Log, changes: seq<GlobalRow>, outcomes: seq<Outcome>,
                            handed: seq<GlobalRow>)
  {
    var rest := RunPass(log, changes, outcomes);
    spec == rest.(handed := handed + rest.handed)
  }

  lemma ContinuesOn(spec: Pass, log: Log, changes: seq<GlobalRow>, outcomes: seq<Outcome>, handed: seq<GlobalRow>)
    requires Continues(spec, log, changes, outcomes, handed)
    requires |changes| > 0 && OutcomeAt(outcomes).Handed? && Entry(log, changes[0]).Some?
    ensures var marked := if OutcomeAt(outcomes).marked then Mark(log, changes[0]) else log;
            Continues(spec, marked, changes[1..], Later(outcomes), handed + [changes[0]])
  {
  }
}
