/** The snapshot leader's flag, its timing and its election step. */
module Leader {
  import opened Lease

  const SECOND := 1_000_000_000
  const DEFAULT_TTL := 30 * SECOND
  const HEARTBEAT_RATIO := 3
  const NANOS_PER_MILLI := 1_000_000

  /** Division that truncates toward zero, as durations divide. */
  function Truncated(a: int, b: int): int
    requires b > 0
  {
    if a >= 0 then a / b else -((-a) / b)
  }

  function Ttl(ttl: int): int {
    if ttl == 0 then DEFAULT_TTL else ttl
  }

  /**
   The renewal period. It is shorter than the lease exactly when the lease lasts longer than one
   second, and a lease of three seconds or more leaves room for three renewals.
   */
  function Heartbeat(ttl: int): (h: int)
    ensures h < Ttl(ttl) <==> Ttl(ttl) > SECOND
    ensures HEARTBEAT_RATIO * h <= Ttl(ttl) <==> Ttl(ttl) >= HEARTBEAT_RATIO * SECOND
    ensures h >= SECOND
    ensures Ttl(ttl) >= 3_000_000_000 ==> 3 * h <= Ttl(ttl) < 3 * (h + 1)
    ensures Ttl(ttl) < 3_000_000_000 ==> h == 1_000_000_000
  {
    var h := Truncated(Ttl(ttl), HEARTBEAT_RATIO);
    if h < SECOND then SECOND else h
  }

  /** The lease duration in the unit of the timestamps. */
  function Millis(ttl: int): int {
    Truncated(ttl, NANOS_PER_MILLI)
  }

  /** An entry has not expired exactly if the lease lasts past the whole millisecond it is in. */
  lemma MillisExact(ttl: int, age: int)
    requires ttl >= 0
    ensures age < Millis(ttl) <==> (age + 1) * 1_000_000 <= ttl
  {
  }

  /** The fields of a leader object as a value. */
  datatype Standing = Standing(nodeID: nat, ttl: int, isLeader: bool, lastStamp: int)

  /** One attempt against a store with revisions `before` and `after`. */
  predicate Attempt(v: Standing, before: seq<LockInfo>, now: int, meanwhile: seq<LockInfo>,
                    v': Standing, after: seq<LockInfo>)
  {
    && v'.nodeID == v.nodeID && v'.ttl == v.ttl
    && (v'.isLeader <==>
          meanwhile == [] && (before == [] || Free(before[|before| - 1], v.nodeID, now, Millis(v.ttl))))
    && (v'.isLeader ==> after == before + [LockInfo(v.nodeID, now)] && v'.lastStamp == now)
    && (!v'.isLeader ==> after == before + meanwhile && v'.lastStamp == v.lastStamp)
  }

  class SnapshotLeader {
    const nodeID: nat
    const ttl: int
    const heartbeat: int
    var isLeader: bool
    // last timestamp with which this node acquired the lease
    var lastStamp: int

    constructor (nodeID: nat, ttl: int)
      ensures this.nodeID == nodeID && this.ttl == Ttl(ttl) && heartbeat == Heartbeat(ttl) && !isLeader
      ensures ttl == 0 ==> this.ttl == 30_000_000_000 && heartbeat == 10_000_000_000
    {
      var effective := if ttl == 0 then DEFAULT_TTL else ttl;
      var h := Truncated(effective, HEARTBEAT_RATIO);
      this.nodeID := nodeID;
      this.ttl := effective;
      this.heartbeat := if h < SECOND then SECOND else h;
      this.isLeader := false;
      this.lastStamp := 0;
    }

    ghost function View(): Standing
      reads this
    {
      Standing(nodeID, ttl, isLeader, lastStamp)
    }

    /**
     One election step against the store. The flag afterwards says whether this very attempt
     acquired the lease, and then the newest revision is this node's with this attempt's stamp.
     In time: undisturbed, the attempt succeeds unless another node holds the entry and its lease of
     `ttl` nanoseconds lasts past the millisecond of `now`. Without a store nothing happens.
     */
    method TryAcquireLeadership(store: MetaStore?, now: int, meanwhile: seq<LockInfo>)
      modifies this`isLeader, this`lastStamp, store
      ensures store == null ==> isLeader == old(isLeader) && lastStamp == old(lastStamp)
      ensures store != null ==> Attempt(old(View()), old(store.history), now, meanwhile, View(), store.history)
      ensures store != null && ttl >= 0 ==>
                var before := old(store.history);
                isLeader <==>
                  && meanwhile == []
                  && (|| before == []
                      || before[|before| - 1].node == nodeID
                      || (now - before[|before| - 1].stamp + 1) * 1_000_000 > ttl)
    {
      if store == null {
        return;
      }
      var wasLeader := isLeader;
      ghost var before := store.history;
      if ttl >= 0 && before != [] {
        MillisExact(ttl, now - before[|before| - 1].stamp);
      }
      var r := store.AcquireLease(nodeID, now, Millis(ttl), meanwhile);
      match r
      case Failure(_) =>
        if wasLeader {
          isLeader := false;
        }
      case Success(acquired) =>
        if acquired {
          lastStamp := now;
        }
        isLeader := acquired;
    }

    method Stop()
      modifies this`isLeader
      ensures View() == old(View()).(isLeader := false)
    {
      if isLeader {
        isLeader := false;
      }
    }
  }
}
