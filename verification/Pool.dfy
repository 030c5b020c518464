/**
 The connection pool: a buffered channel of connections that are opened when first borrowed.

 Borrowing takes a connection from the channel, or waits; returning puts it back.
 */
module Pool {
  import opened Wrappers

  datatype PoolError = OpenFailed | WrongPool

  class Connection {
    // 0 closed, 1 open
    var state: int
    // whether the database handles are set
    var handles: bool
    var disposer: SQLitePool?

    constructor ()
      ensures state == 0 && !handles && disposer == null
    {
      state, handles, disposer := 0, false, null;
    }

    /** A connection is untouched, or open and owned by `pool`. */
    ghost predicate Ready(pool: SQLitePool)
      reads this
    {
      (state == 0 && !handles) || Open(pool)
    }

    ghost predicate Open(pool: SQLitePool)
      reads this
    {
      state == 1 && handles && disposer == pool
    }

    /** Opens the connection unless it is open already; `opens` says whether opening would succeed. */
    method Init(pool: SQLitePool, opens: bool) returns (ok: bool)
      modifies this
      ensures old(state) != 0 ==> ok && state == old(state) && handles == old(handles) && disposer == old(disposer)
      ensures old(state) == 0 ==> ok == opens
      ensures old(state) == 0 && ok ==> Open(pool)
      ensures !ok ==> state == 0 && handles == old(handles) && disposer == old(disposer)
    {
      if state != 0 {
        return true;
      }
      state := 1;
      if !opens {
        state := 0;
        return false;
      }
      handles := true;
      disposer := pool;
      return true;
    }
  }

  class SQLitePool {
    const size: nat
    // the channel's contents, oldest first
    var connections: seq<Connection>
    // connections handed out and not yet returned
    ghost var borrowed: set<Connection>

    /**
     Conservation: idle and borrowed connections together always make up the pool, no connection
     is idle twice or both idle and borrowed, and borrowed ones are open and owned by the pool.
     */
    ghost predicate Valid()
      reads this, connections, borrowed
    {
      && |connections| + |borrowed| == size
      && (forall i, j :: 0 <= i < j < |connections| ==> connections[i] != connections[j])
      && (forall c :: c in connections ==> c !in borrowed && c.Ready(this))
      && (forall c :: c in borrowed ==> c.Open(this))
    }

    constructor Empty(size: nat)
      ensures this.size == size && connections == [] && borrowed == {}
    {
      this.size := size;
      connections := [];
      borrowed := {};
    }

    /**
     A pool of `size` connections, opened at once unless `lazy`; `opens(i)` says whether opening the
     i-th one succeeds. The first failure fails the construction.
     */
    static method New(size: nat, lazy: bool, opens: nat -> bool) returns (r: Option<SQLitePool>)
      ensures r.Some? <==> lazy || forall i: nat :: i < size ==> opens(i)
      ensures r.Some? ==> fresh(r.value) && r.value.Valid() && r.value.size == size
                          && r.value.borrowed == {} && |r.value.connections| == size
                          && (forall c :: c in r.value.connections ==> fresh(c))
                          && (!lazy ==> forall c :: c in r.value.connections ==> c.Open(r.value))
    {
      var pool := new SQLitePool.Empty(size);
      var i := 0;
      while i < size
        invariant 0 <= i <= size && pool.size == size && |pool.connections| == i && pool.borrowed == {}
        invariant fresh(pool)
        invariant forall c :: c in pool.connections ==> fresh(c) && allocated(c)
        invariant forall a, b :: 0 <= a < b < i ==> pool.connections[a] != pool.connections[b]
        invariant forall c :: c in pool.connections ==> c.Ready(pool) && (!lazy ==> c.Open(pool))
        invariant lazy || forall k: nat :: k < i ==> opens(k)
      {
        var con := new Connection();
        if !lazy {
          var ok := con.Init(pool, opens(i));
          if !ok {
            return None;
          }
        }
        pool.connections := pool.connections + [con];
        i := i + 1;
      }
      return Some(pool);
    }

    /**
     Takes a connection from the channel; callers wait while it is empty. When opening fails, a
     fresh connection takes the place of the failed one, so the pool loses nothing.
     */
    method Borrow(opens: bool) returns (r: Result<Connection, PoolError>)
      requires Valid() && |connections| > 0
      modifies this`connections, this`borrowed, connections[0]
      ensures Valid()
      ensures r.Success? <==> opens || old(connections[0].state) != 0
      ensures r.Success? ==>
                r.value == old(connections[0]) && r.value.Open(this)
                && connections == old(connections[1..]) && borrowed == old(borrowed) + {r.value}
                && r.value !in old(borrowed)
      ensures r.Failure? ==>
                r.error == OpenFailed && borrowed == old(borrowed)
                && |connections| == old(|connections|) && connections[..|connections| - 1] == old(connections[1..])
                && fresh(connections[|connections| - 1]) && connections[|connections| - 1].state == 0
    {
      var c := connections[0];
      ghost var rest := connections[1..];
      assert c in connections && c !in borrowed;
      assert forall x :: x in rest ==> x in connections && x != c;
      connections := connections[1..];
      var ok := c.Init(this, opens);
      if !ok {
        var blank := new Connection();
        connections := connections + [blank];
        return Failure(OpenFailed);
      }
      borrowed := borrowed + {c};
      return Success(c);
    }

    /**
     Puts a connection back. A borrowed one always finds room in the channel, so returning never
     blocks; a connection of another pool is refused.
     */
    method Dispose(c: Connection) returns (error: Option<PoolError>)
      requires Valid() && (c.disposer == this ==> c in borrowed)
      modifies this`connections, this`borrowed
      ensures Valid()
      ensures error == None <==> c in old(borrowed)
      ensures error == None ==>
                old(|connections|) < size
                && connections == old(connections) + [c] && borrowed == old(borrowed) - {c}
      ensures error != None ==> error == Some(WrongPool) && connections == old(connections) && borrowed == old(borrowed)
    {
      if c.disposer != this {
        return Some(WrongPool);
      }
      connections := connections + [c];
      borrowed := borrowed - {c};
      return None;
    }
  }

}
