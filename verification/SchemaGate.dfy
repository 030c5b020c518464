/**
 The schema gate in front of applying an event: events that carry a schema hash are applied only
 if it is the current or the previous one; otherwise replication pauses and the local hash is
 recomputed now and then.
 */
module SchemaGate {
  import opened Wrappers
  import opened Rows
  import opened SchemaCache
  import Wire

  const RECOMPUTE_INTERVAL := 5 * 60 * 1_000_000_000

  /** Pause time, time of the last recompute and the pause gauge. */
  datatype Pause = Pause(mismatchAt: Option<int>, lastRecompute: Option<int>, gauge: int)

  const RUNNING := Pause(None, None, 0)

  datatype Verdict = Apply | Retry | Exit

  /** `computed` is what recomputing yields, `gap` whether a stream has lost needed messages. */
  datatype Input = Input(hash: string, now: int, computed: Option<Hash>, gap: bool)

  /** `recomputed` says whether the step recomputed the hash. */
  datatype Outcome = Outcome(pause: Pause, cache: Cached, verdict: Verdict, recomputed: bool)

  predicate Accepts(c: Cached, hash: string) {
    hash == "" || hash == c.current || hash == c.previous
  }

  function AfterRecompute(pause: Pause, cache: Cached, i: Input): Outcome {
    match i.computed
    case None => Outcome(pause, cache, Retry, true)
    case Some(h) =>
      var cache' := Recomputed(cache, h);
      if i.hash == h || i.hash == cache'.previous then Outcome(RUNNING, cache', Apply, true)
      else Outcome(pause, cache', Retry, true)
  }

  function Decide(pause: Pause, cache: Cached, i: Input): Outcome {
    if Accepts(cache, i.hash) then Outcome(RUNNING, cache, Apply, false)
    else if pause.mismatchAt == None then
      AfterRecompute(Pause(Some(i.now), Some(i.now), 1), cache, i)
    else if i.now - (if pause.lastRecompute.Some? then pause.lastRecompute.value else 0) >= RECOMPUTE_INTERVAL then
      var waiting := pause.(lastRecompute := Some(i.now));
      if i.gap then Outcome(waiting, cache, Exit, false) else AfterRecompute(waiting, cache, i)
    else Outcome(pause, cache, Retry, false)
  }

  /** An event that carries a hash is applied only under a hash that is current or previous when checked. */
  lemma OnlyMatchingApplied(pause: Pause, cache: Cached, i: Input)
    ensures Decide(pause, cache, i).verdict == Apply ==> Accepts(Decide(pause, cache, i).cache, i.hash)
    ensures Accepts(cache, i.hash) ==> Decide(pause, cache, i) == Outcome(RUNNING, cache, Apply, false)
  {
  }

  /** Five minutes, in nanoseconds, have passed since the hash was last recomputed. */
  predicate Due(pause: Pause, now: int) {
    now >= (if pause.lastRecompute.Some? then pause.lastRecompute.value else 0) + 300_000_000_000
  }

  /**
   When the gate does what: it recomputes when a pause begins and, without a gap, when the interval
   has passed; it gives up exactly when the interval has passed and there is a gap; it applies
   exactly what is accepted before or, after a recompute that worked, by the hashes it then has.
   */
  lemma GateDecides(pause: Pause, cache: Cached, i: Input)
    ensures var o := Decide(pause, cache, i);
            && (o.recomputed <==>
                  !Accepts(cache, i.hash) && (pause.mismatchAt.None? || (Due(pause, i.now) && !i.gap)))
            && (o.verdict == Exit <==>
                  !Accepts(cache, i.hash) && pause.mismatchAt.Some? && Due(pause, i.now) && i.gap)
            && (o.verdict == Apply <==>
                  Accepts(cache, i.hash) || (o.recomputed && i.computed.Some? && Accepts(o.cache, i.hash)))
            && o.cache == (if o.recomputed && i.computed.Some? then Recomputed(cache, i.computed.value) else cache)
  {
  }

  /** A pause lasts from the first mismatch until something is applied, and keeps the time it began. */
  lemma PauseLasts(pause: Pause, cache: Cached, i: Input)
    ensures var o := Decide(pause, cache, i);
            if o.verdict == Apply then o.pause == Pause(None, None, 0)
            else o.pause.mismatchAt == Some(if pause.mismatchAt.Some? then pause.mismatchAt.value else i.now)
  {
  }

  /** Every event read off the wire has lost its hash, so it is applied at once and ends any pause. */
  lemma WireEventsBypassGate(e: Event, pause: Pause, cache: Cached, i: Input)
    requires i.hash == Wire.OverWire(e).schemaHash
    ensures Decide(pause, cache, i) == Outcome(RUNNING, cache, Apply, false)
  {
  }

  // ---------- whole runs ----------

  /** A recompute: in which pause and when. */
  datatype Recompute = Recompute(pause: nat, at: int)

  /** State of a run: `pauses` counts the pauses begun, `log` lists the recomputes, `time` is the last time seen. */
  datatype Track = Track(pause: Pause, cache: Cached, pauses: nat, log: seq<Recompute>, time: int)

  function Advance(t: Track, i: Input): Track {
    var o := Decide(t.pause, t.cache, i);
    var begun := !Accepts(t.cache, i.hash) && t.pause.mismatchAt == None;
    var pauses := if begun then t.pauses + 1 else t.pauses;
    Track(o.pause, o.cache, pauses, if o.recomputed then t.log + [Recompute(pauses, i.now)] else t.log, i.now)
  }

  ghost predicate Clocked(time: int, inputs: seq<Input>)
    decreases |inputs|
  {
    |inputs| > 0 ==> time <= inputs[0].now && Clocked(inputs[0].now, inputs[1..])
  }

  function AdvanceAll(t: Track, inputs: seq<Input>): Track
    decreases |inputs|
  {
    if |inputs| == 0 then t else AdvanceAll(Advance(t, inputs[0]), inputs[1..])
  }

  predicate AllOrNone(p: Pause) {
    p == RUNNING || (p.mismatchAt.Some? && p.lastRecompute.Some? && p.gauge == 1)
  }

  ghost predicate Spaced(log: seq<Recompute>) {
    forall i, j :: 0 <= i < j < |log| && log[i].pause == log[j].pause ==>
      log[j].at - log[i].at >= RECOMPUTE_INTERVAL
  }

  ghost predicate Inv(t: Track) {
    && AllOrNone(t.pause)
    && Spaced(t.log)
    && (forall i :: 0 <= i < |t.log| ==> t.log[i].pause <= t.pauses)
    && (t.pause.mismatchAt.Some? ==>
          && t.pause.mismatchAt.value <= t.pause.lastRecompute.value <= t.time
          && forall i :: 0 <= i < |t.log| && t.log[i].pause == t.pauses ==>
               t.log[i].at <= t.pause.lastRecompute.value)
  }

  lemma {:induction false} RunKeepsInv(t: Track, inputs: seq<Input>)
    requires Inv(t) && Clocked(t.time, inputs)
    ensures Inv(AdvanceAll(t, inputs))
    decreases |inputs|
  {
    if |inputs| == 0 {
    } else {
      RunKeepsInv(Advance(t, inputs[0]), inputs[1..]);
    }
  }

  /**
   The mismatch machine: in every run over non-decreasing times, pause time, recompute time and
   gauge are all set or all clear, and two recomputes in one pause are at least the recompute
   interval apart.
   */
  lemma MismatchMachine(cache: Cached, time: int, inputs: seq<Input>)
    requires Clocked(time, inputs)
    ensures var t := AdvanceAll(Track(RUNNING, cache, 0, [], time), inputs);
            AllOrNone(t.pause) && Spaced(t.log)
  {
    RunKeepsInv(Track(RUNNING, cache, 0, [], time), inputs);
  }

  // ---------- the object ----------

  class Gate {
    const cache: Cache
    const db: StreamDB
    var mismatchAt: Option<int>
    var lastRecompute: Option<int>
    var gauge: int

    ghost function View(): Pause
      reads this
    {
      Pause(mismatchAt, lastRecompute, gauge)
    }

    constructor (cache: Cache, db: StreamDB)
      ensures this.cache == cache && this.db == db && View() == RUNNING
    {
      this.cache := cache;
      this.db := db;
      mismatchAt, lastRecompute, gauge := None, None, 0;
    }

    method ResetMismatchState()
      modifies this
      ensures View() == RUNNING
    {
      mismatchAt := None;
      lastRecompute := None;
      gauge := 0;
    }

    /**
     Validates an event and applies it when the verdict is to apply; the database changes in no
     other case. `i` carries the event's hash and what the surroundings answer.
     */
    method ValidateAndReplicate(event: Event, i: Input) returns (verdict: Verdict, error: Option<ReplicateError>)
      requires i.hash == event.schemaHash && cache.managed && AllOrNone(View())
      modifies this, cache`schemaHash, cache`previousHash, db`tables
      ensures AllOrNone(View())
      ensures var o := Decide(old(View()), old(cache.View()), i);
              verdict == o.verdict && View() == o.pause && cache.View() == o.cache
      ensures verdict == Apply ==> Accepts(cache.View(), event.schemaHash)
      ensures db.tables == match Replicate(db.schema, old(db.tables), event)
                           case Success(t) => if verdict == Apply then t else old(db.tables)
                           case Failure(_) => old(db.tables)
      ensures error == match Replicate(db.schema, old(db.tables), event)
                       case Success(_) => None
                       case Failure(e) => if verdict == Apply then Some(e) else None
    {
      error := None;
      if event.schemaHash != "" && event.schemaHash != cache.schemaHash && event.schemaHash != cache.previousHash {
        verdict, error := HandleMismatch(event, i);
        return;
      }
      ResetMismatchState();
      error := db.ReplicateEvent(event);
      verdict := Apply;
    }

    method HandleMismatch(event: Event, i: Input) returns (verdict: Verdict, error: Option<ReplicateError>)
      requires i.hash == event.schemaHash && cache.managed && AllOrNone(View())
      requires !Accepts(cache.View(), event.schemaHash)
      modifies this, cache`schemaHash, cache`previousHash, db`tables
      ensures AllOrNone(View())
      ensures var o := Decide(old(View()), old(cache.View()), i);
              verdict == o.verdict && View() == o.pause && cache.View() == o.cache
      ensures db.tables == match Replicate(db.schema, old(db.tables), event)
                           case Success(t) => if verdict == Apply then t else old(db.tables)
                           case Failure(_) => old(db.tables)
      ensures error == match Replicate(db.schema, old(db.tables), event)
                       case Success(_) => None
                       case Failure(e) => if verdict == Apply then Some(e) else None
    {
      error, verdict := None, Retry;
      if mismatchAt == None {
        mismatchAt := Some(i.now);
        lastRecompute := Some(i.now);
        gauge := 1;
      } else if i.now - lastRecompute.value >= RECOMPUTE_INTERVAL {
        lastRecompute := Some(i.now);
        if i.gap {
          return Exit, None;
        }
      } else {
        return;
      }
      var newHash := cache.Recompute(i.computed);
      if newHash.Some? && (event.schemaHash == newHash.value || event.schemaHash == cache.previousHash) {
        ResetMismatchState();
        error := db.ReplicateEvent(event);
        verdict := Apply;
      }
    }
  }
}
