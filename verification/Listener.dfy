/**
 The listener loop of one shard as a program: it filters by saved sequence, applies, saves and
 acknowledges.
 */
module Listener {
  import opened Rows
  import opened Cbor
  import opened SequenceFile

  /**
   What the loop meets next. `retry` is the schema gate's verdict on a message, `cancelled` says
   whether the callback reports cancellation, `acked` whether acknowledging succeeds.
   `PublishSaved` is a save by the publishing side of the same process in between, `OtherWork`
   what the rest of the process and the application do to the database and the sequences.
   */
  datatype Incoming =
    | Timeout
    | Broken
    | Message(q: uint64, event: Event, retry: bool, cancelled: bool, acked: bool, order: seq<Name>)
    | PublishSaved(v: uint64, order: seq<Name>)
    | OtherWork(tables: Tables, stored: Stored)

  datatype Exit = Running | Cancelled | Failed

  /** Database, stored sequences and the loop's own variable. */
  datatype Loop = Loop(tables: Tables, stored: Stored, savedSeq: uint64)

  /** Saving `v` is possible with the given iteration order. */
  ghost predicate CanTake(loop: Loop, name: Name, m: Incoming) {
    match m
    case Message(q, _, _, _, _, order) => Possible(loop.stored, Save(name, q, order))
    case PublishSaved(v, order) => Possible(loop.stored, Save(name, v, order))
    case _ => true
  }

  /** The save at the end of an iteration; the loop continues with the value that saving returns. */
  ghost function AfterSaving(loop: Loop, name: Name, m: Incoming): Loop
    requires m.Message? && CanTake(loop, name, m)
  {
    var stored := Next(loop.stored, Save(name, m.q, m.order));
    Loop(loop.tables, stored, Saved(stored.seqs, name))
  }

  /** One iteration. */
  ghost function Iterate(schema: Schema, name: Name, loop: Loop, m: Incoming): (Loop, Exit)
    requires CanTake(loop, name, m)
  {
    match m
    case Timeout => (loop, Running)
    case Broken => (loop, Failed)
    case PublishSaved(v, order) => (loop.(stored := Next(loop.stored, Save(name, v, order))), Running)
    case OtherWork(tables, stored) => (loop.(tables := tables, stored := stored), Running)
    case Message(q, event, retry, cancelled, acked, order) =>
      if q <= loop.savedSeq then (loop, Running)
      else if retry then
        // the gate asks for redelivery, and the position is saved all the same
        (AfterSaving(loop, name, m), if acked then Running else Failed)
      else
        match Replicate(schema, loop.tables, event)
        case Failure(_) => (loop, Failed)
        case Success(tables) =>
          var applied := loop.(tables := tables);
          if cancelled then (applied, Cancelled)
          else (AfterSaving(applied, name, m), if acked then Running else Failed)
  }

  /** Every save along the way is possible. */
  ghost predicate CanTakeAll(schema: Schema, name: Name, loop: Loop, ms: seq<Incoming>)
    decreases |ms|
  {
    |ms| > 0 ==>
      CanTake(loop, name, ms[0])
      && (Iterate(schema, name, loop, ms[0]).1 == Running ==>
            CanTakeAll(schema, name, Iterate(schema, name, loop, ms[0]).0, ms[1..]))
  }

  ghost function IterateAll(schema: Schema, name: Name, loop: Loop, ms: seq<Incoming>): (Loop, Exit)
    requires CanTakeAll(schema, name, loop, ms)
    decreases |ms|
  {
    if |ms| == 0 then (loop, Running)
    else
      var r := Iterate(schema, name, loop, ms[0]);
      if r.1 != Running then r else IterateAll(schema, name, r.0, ms[1..])
  }

  class ShardListener {
    const db: StreamDB
    const state: ReplicationState
    const name: Name

    constructor (db: StreamDB, state: ReplicationState, name: Name)
      ensures this.db == db && this.state == state && this.name == name
    {
      this.db := db;
      this.state := state;
      this.name := name;
    }

    method Handle(m: Incoming, savedSeq: uint64) returns (savedSeq': uint64, exit: Exit)
      requires state.open && CanTake(Loop(db.tables, Stored(state.seqs, state.file), savedSeq), name, m)
      modifies db`tables, state`seqs, state`file
      ensures (Loop(db.tables, Stored(state.seqs, state.file), savedSeq'), exit)
           == Iterate(db.schema, name, Loop(old(db.tables), Stored(old(state.seqs), old(state.file)), savedSeq), m)
    {
      savedSeq', exit := savedSeq, Running;
      match m
      case Timeout =>
      case Broken => exit := Failed;
      case PublishSaved(v, order) =>
        var _ := state.SaveSeq(name, v, order);
      case OtherWork(tables, stored) =>
        db.tables := tables;
        state.seqs, state.file := stored.seqs, stored.file;
      case Message(q, event, retry, cancelled, acked, order) =>
        if q <= savedSeq {
          return;
        }
        if !retry {
          var error := db.ReplicateEvent(event);
          if error.Some? {
            return savedSeq, Failed;
          }
          if cancelled {
            return savedSeq, Cancelled;
          }
        }
        var r := state.SaveSeq(name, q, order);
        savedSeq' := r.value;
        exit := if acked then Running else Failed;
    }

    /** The whole loop over the messages that arrive while it runs. */
    method ListenWithDB(ms: seq<Incoming>) returns (exit: Exit, savedSeq: uint64)
      requires state.open
      requires CanTakeAll(db.schema, name,
                          Loop(db.tables, Stored(state.seqs, state.file), Saved(state.seqs, name)), ms)
      modifies db`tables, state`seqs, state`file
      ensures (Loop(db.tables, Stored(state.seqs, state.file), savedSeq), exit)
           == IterateAll(db.schema, name,
                         Loop(old(db.tables), Stored(old(state.seqs), old(state.file)), Saved(old(state.seqs), name)),
                         ms)
    {
      savedSeq := state.GetSeq(name);
      exit := Running;
      ghost var start := Loop(db.tables, Stored(state.seqs, state.file), savedSeq);
      var i := 0;
      while i < |ms| && exit == Running
        invariant 0 <= i <= |ms|
        invariant exit == Running ==>
          CanTakeAll(db.schema, name, Loop(db.tables, Stored(state.seqs, state.file), savedSeq), ms[i..])
          && IterateAll(db.schema, name, start, ms)
             == IterateAll(db.schema, name, Loop(db.tables, Stored(state.seqs, state.file), savedSeq), ms[i..])
        invariant exit != Running ==>
          (Loop(db.tables, Stored(state.seqs, state.file), savedSeq), exit) == IterateAll(db.schema, name, start, ms)
        decreases |ms| - i
      {
        assert ms[i..][0] == ms[i] && ms[i..][1..] == ms[i + 1..];
        savedSeq, exit := Handle(ms[i], savedSeq);
        i := i + 1;
      }
    }
  }

  /**
   A message that cannot be applied stays undone: the loop ends with database, stored sequences and
   saved sequence as they were. A loop that starts over from the stored sequences, on whatever
   database, fails on it again exactly if the stored sequence is below the message's, and passes
   it over otherwise.
   */
  lemma FailedMessageStays(schema: Schema, name: Name, loop: Loop, m: Incoming, tables: Tables, again: Incoming)
    requires m.Message? && !m.retry && m.q > loop.savedSeq && !Applicable(schema, m.event)
    requires again.Message? && !again.retry && again.q == m.q && again.event == m.event
    requires CanTake(loop, name, m) && CanTake(Loop(tables, loop.stored, 0), name, again)
    ensures Iterate(schema, name, loop, m) == (loop, Failed)
    ensures var restarted := Loop(tables, loop.stored, Saved(loop.stored.seqs, name));
            Iterate(schema, name, restarted, again)
            == (restarted, if Saved(loop.stored.seqs, name) < m.q then Failed else Running)
  {
    ReplicateSucceeds(schema, loop.tables, m.event);
    ReplicateSucceeds(schema, tables, m.event);
  }

  // ---------- what a saved sequence stands for ----------

  /** The message was applied, or the gate asked for it again. */
  ghost predicate Handled(schema: Schema, m: Incoming, q: nat) {
    m.Message? && m.q == q && (m.retry || (Applicable(schema, m.event) && !m.cancelled))
  }

  /** Messages come in sequence order: none is more than one past those seen so far. */
  ghost predicate InOrder(seen: nat, ms: seq<Incoming>)
    decreases |ms|
  {
    |ms| > 0 ==>
      if ms[0].Message? then
        ms[0].q <= seen + 1 && InOrder(if ms[0].q > seen then ms[0].q else seen, ms[1..])
      else InOrder(seen, ms[1..])
  }

  /** The loop is the only one that writes its shard's sequence. */
  ghost predicate Alone(ms: seq<Incoming>) {
    forall i :: 0 <= i < |ms| ==> !ms[i].PublishSaved? && !ms[i].OtherWork?
  }

  /** One message, and what the loop knows after it. */
  lemma IterateHandles(schema: Schema, name: Name, loop: Loop, m: Incoming)
    requires CanTake(loop, name, m) && !m.PublishSaved? && !m.OtherWork?
    requires Faithful(loop.stored) && loop.savedSeq == Saved(loop.stored.seqs, name)
    ensures var (loop', exit) := Iterate(schema, name, loop, m);
            && Faithful(loop'.stored) && loop'.savedSeq == Saved(loop'.stored.seqs, name)
            && loop'.savedSeq >= loop.savedSeq
            && (loop'.savedSeq > loop.savedSeq ==> Handled(schema, m, loop'.savedSeq))
            && (exit == Running && m.Message? && m.q > loop.savedSeq ==> loop'.savedSeq == m.q)
  {
    if m.Message? && m.q > loop.savedSeq {
      ReplicateSucceeds(schema, loop.tables, m.event);
      NextSaved(loop.stored, Save(name, m.q, m.order), name);
      NextKeepsFaithful(loop.stored, Save(name, m.q, m.order));
    }
  }

  /**
   In whatever order messages come, the sequence stored at the end is the one stored at the start or
   that of a message the loop applied or the gate asked for again.
   */
  lemma {:induction false} StoredWasHandled(schema: Schema, name: Name, loop: Loop, ms: seq<Incoming>)
    requires CanTakeAll(schema, name, loop, ms) && Alone(ms)
    requires Faithful(loop.stored) && loop.savedSeq == Saved(loop.stored.seqs, name)
    ensures var stored := Saved(IterateAll(schema, name, loop, ms).0.stored.seqs, name);
            stored >= loop.savedSeq
            && (stored == loop.savedSeq || exists i :: 0 <= i < |ms| && Handled(schema, ms[i], stored))
    decreases |ms|
  {
    if |ms| == 0 {
    } else {
      var (loop', exit) := Iterate(schema, name, loop, ms[0]);
      var stored := Saved(IterateAll(schema, name, loop, ms).0.stored.seqs, name);
      IterateHandles(schema, name, loop, ms[0]);
      if exit == Running {
        StoredWasHandled(schema, name, loop', ms[1..]);
        if stored != loop'.savedSeq {
          var i :| 0 <= i < |ms[1..]| && Handled(schema, ms[1..][i], stored);
          assert Handled(schema, ms[i + 1], stored);
        }
      }
    }
  }

  /**
   No sequence is saved without its message: with messages in sequence order and no other writer
   of the shard's sequence, every sequence up to the one stored at the end, beyond the one stored at
   the start, is that of a message the loop applied or the gate asked for again. A message that
   could not be applied is never among the saved ones, whenever the loop stops.
   */
  lemma {:induction false} SavedWasHandled(schema: Schema, name: Name, loop: Loop, ms: seq<Incoming>, q: nat)
    requires CanTakeAll(schema, name, loop, ms) && Alone(ms) && InOrder(loop.savedSeq, ms)
    requires Faithful(loop.stored) && loop.savedSeq == Saved(loop.stored.seqs, name)
    requires loop.savedSeq < q <= Saved(IterateAll(schema, name, loop, ms).0.stored.seqs, name)
    ensures exists i :: 0 <= i < |ms| && Handled(schema, ms[i], q)
    decreases |ms|
  {
    if |ms| == 0 {
    } else {
      var (loop', exit) := Iterate(schema, name, loop, ms[0]);
      IterateHandles(schema, name, loop, ms[0]);
      if q <= loop'.savedSeq {
        assert Handled(schema, ms[0], q);
      } else {
        SavedWasHandled(schema, name, loop', ms[1..], q);
        var i :| 0 <= i < |ms[1..]| && Handled(schema, ms[1..][i], q);
        assert Handled(schema, ms[i + 1], q);
      }
    }
  }

  /**
   A message the gate wants redelivered is lost to this node: its position is saved without
   applying it, so every later delivery of it is passed over, by this loop and by one that starts
   from the stored sequences after a restart.
   */
  lemma RetriedMessageIsLost(schema: Schema, name: Name, loop: Loop, m: Incoming, again: Incoming)
    requires m.Message? && m.retry && m.q > loop.savedSeq
    requires again.Message? && again.q == m.q
    requires Faithful(loop.stored) && CanTake(loop, name, m)
    requires CanTake(Iterate(schema, name, loop, m).0, name, again)
    ensures var after := Iterate(schema, name, loop, m).0;
            after.tables == loop.tables && after.savedSeq == Saved(after.stored.seqs, name)
            && Iterate(schema, name, after, again) == (after, Running)
  {
  }
}
