/** The publishing side of a node: one message onto its shard's stream, and the bookkeeping after it. */
module Replicator {
  import opened Wrappers
  import opened Rows
  import opened Routing
  import opened Replay
  import opened Cbor
  import opened SequenceFile
  import Cluster
  import Wire

  datatype PublishError = StreamError | StateError(error: SaveError)

  /** Snapshots are counted on the first shard only. */
  const SNAPSHOT_SHARD := 0

  function ShardOfHash(hash: nat, shards: nat): (s: nat)
    requires shards > 0
    ensures s < shards
  {
    hash % shards
  }

  /** The share of the log limit that falls to one shard; a limit below the shard count never fires. */
  function SnapshotDue(maxEntries: nat, shards: nat, s: nat, saved: nat): (due: bool)
    requires shards > 0
    ensures due ==> s == SNAPSHOT_SHARD && maxEntries >= shards
  {
    var entries := maxEntries / shards;
    entries != 0 && saved % entries == 0 && s == SNAPSHOT_SHARD
  }

  lemma Multiple(m: int, n: nat)
    requires m != 0
    ensures m * n >= n || m * n + n <= 0
  {
  }

  /** Quotient and remainder are unique. */
  lemma DivisionIs(k: nat, s: nat, n: nat)
    requires s < n
    ensures (k * n + s) / n == k && (k * n + s) % n == s
  {
    var x := k * n + s;
    var d, r := x / n, x % n;
    assert x == d * n + r;
    assert (d - k) * n == d * n - k * n;
    if d != k {
      Multiple(d - k, n);
      assert false;
    }
  }

  /** Hashes that differ by a multiple of the shard count go to one shard, and every shard is used. */
  lemma ShardOfHashExact(k: nat, s: nat, shards: nat)
    requires s < shards
    ensures ShardOfHash(k * shards + s, shards) == s
  {
    DivisionIs(k, s, shards);
  }

  /** A snapshot is due at exactly the multiples of a shard's share of the log limit. */
  lemma DueAtMultiples(maxEntries: nat, shards: nat, entries: nat, k: nat, rest: nat)
    requires shards > 0 && rest < entries && entries * shards <= maxEntries < (entries + 1) * shards
    ensures SnapshotDue(maxEntries, shards, 0, k * entries + rest) <==> rest == 0
  {
    assert maxEntries == entries * shards + (maxEntries - entries * shards);
    assert (entries + 1) * shards == entries * shards + shards;
    DivisionIs(entries, maxEntries - entries * shards, shards);
    DivisionIs(k, rest, entries);
  }

  /** Of any `entries` consecutive sequences of the first shard, exactly one calls for a snapshot. */
  lemma OneSnapshotPerShare(maxEntries: nat, shards: nat, entries: nat, from: nat) returns (q: nat)
    requires shards > 0 && entries > 0 && entries * shards <= maxEntries < (entries + 1) * shards
    ensures from <= q < from + entries
    ensures forall p :: from <= p < from + entries ==> (SnapshotDue(maxEntries, shards, 0, p) <==> p == q)
  {
    var k, r := from / entries, from % entries;
    assert from == k * entries + r;
    assert (k + 1) * entries == k * entries + entries;
    q := if r == 0 then from else (k + 1) * entries;
    forall p | from <= p < from + entries ensures SnapshotDue(maxEntries, shards, 0, p) <==> p == q {
      if p < (k + 1) * entries {
        DueAtMultiples(maxEntries, shards, entries, k, p - k * entries);
      } else {
        DueAtMultiples(maxEntries, shards, entries, k + 1, p - (k + 1) * entries);
      }
    }
  }

  class Replicator {
    const shards: nat
    const maxEntries: nat
    const snapshotsEnabled: bool
    // stream name per shard
    const names: seq<Name>
    const state: ReplicationState
    var logs: seq<seq<Msg>>

    ghost predicate Valid()
      reads this
    {
      0 < shards == |names| == |logs|
    }

    constructor (shards: nat, maxEntries: nat, snapshotsEnabled: bool, names: seq<Name>, state: ReplicationState)
      requires 0 < shards == |names|
      ensures Valid() && forall s :: 0 <= s < |logs| ==> logs[s] == []
      ensures this.shards == shards && this.maxEntries == maxEntries && this.snapshotsEnabled == snapshotsEnabled
      ensures this.names == names && this.state == state
    {
      this.shards, this.maxEntries, this.snapshotsEnabled := shards, maxEntries, snapshotsEnabled;
      this.names, this.state := names, state;
      this.logs := seq(shards, _ => []);
    }

    /** Appends to a stream and, with snapshots enabled, saves the acknowledged sequence. */
    method Append(s: nat, msg: Msg, order: seq<Name>) returns (error: Option<PublishError>, saved: uint64)
      requires Valid() && s < shards && |logs[s]| < 0xFFFF_FFFF_FFFF_FFFF
      requires Possible(Stored(state.seqs, state.file), Save(names[s], |logs[s]| + 1, order))
      modifies this`logs, state`seqs, state`file
      ensures Valid() && logs == old(logs)[s := old(logs[s]) + [msg]]
      ensures !snapshotsEnabled || !state.open ==> state.seqs == old(state.seqs) && state.file == old(state.file)
      ensures error == if snapshotsEnabled && !state.open then Some(StateError(NotInitialized)) else None
      ensures snapshotsEnabled && state.open ==>
                Stored(state.seqs, state.file)
                == Next(Stored(old(state.seqs), old(state.file)), Save(names[s], old(|logs[s]|) + 1, order))
                && saved == Saved(state.seqs, names[s])
    {
      var ack := |logs[s]| + 1;
      logs := logs[s := logs[s] + [msg]];
      if !snapshotsEnabled {
        return None, 0;
      }
      var result := state.SaveSeq(names[s], ack, order);
      if result.Failure? {
        return Some(StateError(result.error)), 0;
      }
      return None, result.value;
    }

    /**
     Publishes to the shard of `hash`; `accepted` says whether the stream takes the message. With
     snapshots enabled the acknowledged sequence is saved, and every so many messages of the first
     shard a snapshot is called for. A message stays on its stream even when saving fails.
     */
    method Publish(hash: nat, msg: Msg, accepted: bool, order: seq<Name>)
        returns (error: Option<PublishError>, snapshotDue: bool)
      requires Valid() && |logs[ShardOfHash(hash, shards)]| < 0xFFFF_FFFF_FFFF_FFFF
      requires var s := ShardOfHash(hash, shards);
               Possible(Stored(state.seqs, state.file), Save(names[s], |logs[s]| + 1, order))
      modifies this`logs, state`seqs, state`file
      ensures Valid()
      ensures !accepted ==> error == Some(StreamError) && logs == old(logs)
      ensures var s := ShardOfHash(hash, shards); accepted ==> logs == old(logs)[s := old(logs[s]) + [msg]]
      ensures !accepted || !snapshotsEnabled || !state.open ==>
                state.seqs == old(state.seqs) && state.file == old(state.file) && !snapshotDue
      ensures accepted ==> error == if snapshotsEnabled && !state.open then Some(StateError(NotInitialized)) else None
      ensures var s := ShardOfHash(hash, shards);
              accepted && snapshotsEnabled && state.open ==>
                Stored(state.seqs, state.file)
                == Next(Stored(old(state.seqs), old(state.file)), Save(names[s], old(|logs[s]|) + 1, order))
                && (snapshotDue <==> SnapshotDue(maxEntries, shards, s, Saved(state.seqs, names[s])))
    {
      var shard := ShardOfHash(hash, shards);
      if !accepted {
        return Some(StreamError), false;
      }
      var saved;
      error, saved := Append(shard, msg, order);
      snapshotDue := snapshotsEnabled && error.None? && SnapshotDue(maxEntries, shards, shard, saved);
    }
  }

  /** The saved sequences of all streams, seen from a protocol node. */
  ghost predicate Matches(node: Cluster.Node, names: seq<Name>, seqs: Sequences) {
    |node.seqMap| == |node.listeners| == |names|
    && forall s :: 0 <= s < |names| ==> node.seqMap[s] == Saved(seqs, names[s])
  }

  /** The hash of an event, as it is handed to the replicator. */
  function HashOf(schema: Schema, hasher: Hasher, event: Event): nat
    requires event.table in schema
  {
    hasher(event.table, HashedCells(SortedKeyColumns(schema[event.table]), event.row))
  }

  /** The stream of an event's hash is the shard the protocol routes the event to. */
  lemma HashIsRoute(cfg: Cluster.Config, hasher: Hasher, event: Event)
    requires cfg.shards > 0 && cfg.route == HashRoute(cfg.schema, hasher, cfg.shards) && event.table in cfg.schema
    ensures ShardOfHash(HashOf(cfg.schema, hasher, event), cfg.shards) == cfg.route(EventKey(cfg.schema, event))
  {
    ShardOfRow(cfg.schema, hasher, cfg.shards, event.table, event.row);
  }

  /**
   Publishing a captured change is the protocol's publish step: the message lands on the stream of
   the event's shard, the sequences move as saving the acknowledgement moves them, or not at all
   when snapshots are disabled, the change leaves the queue if it was marked, and no other node is
   concerned.
   */
  lemma PublishIsProtocolStep(cfg: Cluster.Config, c: Cluster.State, n: nat, i: nat, marked: bool, stored: bool,
                              s: nat, seqNo: uint64, names: seq<Name>, st: Stored, order: seq<Name>)
    requires Cluster.Wf(cfg, c) && Cluster.Enabled(cfg, c, Cluster.Publish(n, i, marked, stored))
    requires s == cfg.route(EventKey(cfg.schema, c.nodes[n].queue[i])) < |names| == cfg.shards
    requires seqNo == |c.logs[s]| + 1 && forall a, b :: 0 <= a < b < |names| ==> names[a] != names[b]
    requires Matches(c.nodes[n], names, st.seqs) && Faithful(st) && Possible(st, Save(names[s], seqNo, order))
    ensures var c' := Cluster.Do(cfg, c, Cluster.Publish(n, i, marked, stored));
            var st' := if stored then Next(st, Save(names[s], seqNo, order)) else st;
            && c'.logs == c.logs[s := c.logs[s] + [Msg(n, Wire.OverWire(c.nodes[n].queue[i]))]]
            && n < |c'.nodes| && c'.nodes == c.nodes[n := c'.nodes[n]] && Matches(c'.nodes[n], names, st'.seqs)
            && c'.nodes[n].queue == (if marked then Cluster.Remove(c.nodes[n].queue, i) else c.nodes[n].queue)
  {
  }
}
