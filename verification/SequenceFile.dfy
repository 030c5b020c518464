/**
 The saved sequence per stream and the file behind it.

 The map is kept monotone and re-encoded at offset 0 of the file on every save; the file is never
 truncated.
 */
module SequenceFile {
  import opened Wrappers
  import opened Cbor

  datatype SaveError = NotInitialized

  type Sequences = map<Name, uint64>

  /** Writing at offset 0 replaces the front of a file and leaves any longer tail in place. */
  function Overwrite(file: seq<byte>, bytes: seq<byte>): seq<byte> {
    bytes + if |file| > |bytes| then file[|bytes|..] else []
  }

  /** The order in which iterating over the map yields its keys. */
  ghost predicate Enumerates(order: seq<Name>, keys: set<Name>) {
    (forall i, j :: 0 <= i < j < |order| ==> order[i] != order[j])
    && (forall i :: 0 <= i < |order| ==> order[i] in keys)
    && (forall k :: k in keys ==> k in order)
  }

  function EntriesIn(order: seq<Name>, m: Sequences): (ps: seq<Pair>)
    requires forall i :: 0 <= i < |order| ==> order[i] in m
    ensures |ps| == |order|
    ensures forall i :: 0 <= i < |ps| ==> ps[i] == (order[i], m[order[i]])
  {
    seq(|order|, i requires 0 <= i < |order| => (order[i], m[order[i]]))
  }

  // ---------- the state as values ----------

  datatype Stored = Stored(seqs: Sequences, file: seq<byte>)

  datatype Op =
    | Save(name: Name, v: uint64, order: seq<Name>)
    | Restart

  predicate Stale(seqs: Sequences, name: Name, v: uint64) {
    name in seqs && v <= seqs[name]
  }

  /** `order` is a possible iteration order of the map that saving encodes. */
  ghost predicate Possible(st: Stored, op: Op) {
    op.Save? && !Stale(st.seqs, op.name, op.v) ==>
      Enumerates(op.order, st.seqs.Keys + {op.name}) && |op.order| < LIMIT64
  }

  function LoadFile(file: seq<byte>): Option<Sequences> {
    if |file| < 1 then Some(map[]) else DecodeMap(file)
  }

  ghost function Next(st: Stored, op: Op): Stored
    requires Possible(st, op)
  {
    match op
    case Save(name, v, order) =>
      if Stale(st.seqs, name, v) then st
      else
        var seqs := st.seqs[name := v];
        Stored(seqs, Overwrite(st.file, EncodeMap(EntriesIn(order, seqs))))
    case Restart =>
      match LoadFile(st.file)
      case Some(seqs) => st.(seqs := seqs)
      case None => st
  }

  /** The bytes are exactly an encoding of the map, with nothing after it. */
  ghost predicate Encodes(file: seq<byte>, seqs: Sequences) {
    exists ps :: Lists(ps, seqs) && |ps| < LIMIT64 && file == EncodeMap(ps)
  }

  /** The file encodes the map; an empty map may have no file contents yet. */
  ghost predicate Faithful(st: Stored) {
    (st.seqs == map[] && st.file == []) || Encodes(st.file, st.seqs)
  }

  lemma FaithfulLoads(st: Stored)
    requires Faithful(st)
    ensures LoadFile(st.file) == Some(st.seqs)
  {
    if st.file != [] {
      var ps :| Lists(ps, st.seqs) && |ps| < LIMIT64 && st.file == EncodeMap(ps);
      MapRoundTrip(ps, st.seqs, []);
      assert EncodeMap(ps) + [] == EncodeMap(ps);
    }
  }

  /** Overwriting with the encoding of a grown map leaves no stale tail. */
  lemma NoStaleTail(file: seq<byte>, seqs: Sequences, qs: seq<Pair>, seqs': Sequences)
    requires file == [] || Encodes(file, seqs)
    requires Lists(qs, seqs') && |qs| < LIMIT64
    requires forall k :: k in seqs ==> k in seqs' && seqs[k] <= seqs'[k]
    ensures Overwrite(file, EncodeMap(qs)) == EncodeMap(qs)
  {
    if file != [] {
      var ps :| Lists(ps, seqs) && |ps| < LIMIT64 && file == EncodeMap(ps);
      MapNotShorter(ps, seqs, qs, seqs');
    }
  }

  lemma NextKeepsFaithful(st: Stored, op: Op)
    requires Faithful(st) && Possible(st, op)
    ensures Faithful(Next(st, op))
    ensures op.Restart? ==> Next(st, op) == st
  {
    match op
    case Restart => FaithfulLoads(st);
    case Save(name, v, order) =>
      if !Stale(st.seqs, name, v) {
        var seqs := st.seqs[name := v];
        assert seqs.Keys == st.seqs.Keys + {name};
        NoStaleTail(st.file, st.seqs, EntriesIn(order, seqs), seqs);
        assert Encodes(Next(st, op).file, seqs);
      }
  }

  /** A save raises the stream's value to the saved one if that is larger, and no other value. */
  lemma NextSaved(st: Stored, op: Op, name: Name)
    requires Faithful(st) && Possible(st, op)
    ensures Saved(Next(st, op).seqs, name)
         == if op.Save? && op.name == name && op.v > Saved(st.seqs, name) then op.v else Saved(st.seqs, name)
  {
    FaithfulLoads(st);
  }

  // ---------- whole runs ----------

  ghost predicate Feasible(st: Stored, ops: seq<Op>)
    decreases |ops|
  {
    |ops| > 0 ==> Possible(st, ops[0]) && Feasible(Next(st, ops[0]), ops[1..])
  }

  ghost function After(st: Stored, ops: seq<Op>): Stored
    requires Feasible(st, ops)
    decreases |ops|
  {
    if |ops| == 0 then st else After(Next(st, ops[0]), ops[1..])
  }

  /** The largest value ever saved for a stream, or `start` if that is larger. */
  function Largest(start: nat, ops: seq<Op>, name: Name): nat
    decreases |ops|
  {
    if |ops| == 0 then start
    else
      var here := if ops[0].Save? && ops[0].name == name && ops[0].v > start then ops[0].v else start;
      Largest(here, ops[1..], name)
  }

  function Saved(seqs: Sequences, name: Name): uint64 {
    if name in seqs then seqs[name] else 0
  }

  lemma {:induction false} RunFrom(st: Stored, ops: seq<Op>, name: Name)
    requires Faithful(st) && Feasible(st, ops)
    ensures Faithful(After(st, ops))
    ensures Saved(After(st, ops).seqs, name) == Largest(Saved(st.seqs, name), ops, name)
    decreases |ops|
  {
    if |ops| == 0 {
    } else {
      NextKeepsFaithful(st, ops[0]);
      NextSaved(st, ops[0], name);
      RunFrom(Next(st, ops[0]), ops[1..], name);
    }
  }

  /**
   After any run of saves and restarts from an empty file: loading the file gives the current map,
   the file holds no stale tail, and each value is the largest ever saved for its stream.
   */
  lemma SequenceFileRoundTrip(ops: seq<Op>, name: Name)
    requires Feasible(Stored(map[], []), ops)
    ensures var st := After(Stored(map[], []), ops);
            && LoadFile(st.file) == Some(st.seqs)
            && Faithful(st)
            && Saved(st.seqs, name) == Largest(0, ops, name)
  {
    RunFrom(Stored(map[], []), ops, name);
    FaithfulLoads(After(Stored(map[], []), ops));
  }

  // ---------- the object ----------

  class ReplicationState {
    var seqs: Sequences
    var file: seq<byte>
    var open: bool

    /** An object over an existing file, not yet initialised. */
    constructor (file: seq<byte>)
      ensures this.file == file && !open
    {
      this.seqs := map[];
      this.file := file;
      this.open := false;
    }

    /** Opens the file and loads it; a file that does not decode is an error. */
    method Init() returns (ok: bool)
      modifies this
      ensures open && file == old(file)
      ensures ok == LoadFile(file).Some?
      ensures ok ==> seqs == LoadFile(file).value
      ensures !ok ==> seqs == map[]
    {
      seqs := map[];
      open := true;
      if |file| < 1 {
        return true;
      }
      match DecodeMap(file)
      case None =>
        return false;
      case Some(m) =>
        seqs := m;
        return true;
    }

    /** Saves a sequence and returns the value now stored for the stream. */
    method SaveSeq(name: Name, v: uint64, order: seq<Name>) returns (r: Result<uint64, SaveError>)
      requires Possible(Stored(seqs, file), Save(name, v, order))
      modifies this`seqs, this`file
      ensures Faithful(Stored(old(seqs), old(file))) ==> Faithful(Stored(seqs, file))
      ensures !open ==> r == Failure(NotInitialized) && seqs == old(seqs) && file == old(file)
      ensures open ==> Stored(seqs, file) == Next(Stored(old(seqs), old(file)), Save(name, v, order))
      ensures open ==> r == Success(Saved(seqs, name)) && Saved(seqs, name) >= v
    {
      ghost var before := Stored(seqs, file);
      if !open {
        return Failure(NotInitialized);
      }
      if name in seqs && v <= seqs[name] {
        return Success(seqs[name]);
      }
      seqs := seqs[name := v];
      file := Overwrite(file, EncodeMap(EntriesIn(order, seqs)));
      if Faithful(before) {
        NextKeepsFaithful(before, Save(name, v, order));
      }
      return Success(v);
    }

    method GetSeq(name: Name) returns (v: uint64)
      ensures v == Saved(seqs, name)
    {
      if name in seqs {
        return seqs[name];
      }
      return 0;
    }
  }
}
