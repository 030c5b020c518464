/** The cached schema hash and the one before it. */
module SchemaCache {
  import opened Wrappers

  /** A hexadecimal digest is never the empty string. */
  type Hash = h: string | |h| > 0 witness "0"

  /** Current and previous hash; the empty string means there is none. */
  datatype Cached = Cached(current: string, previous: string)

  function Recomputed(c: Cached, hash: Hash): Cached {
    Cached(hash, if hash != c.current && c.current != "" then c.current else c.previous)
  }

  function AfterAll(c: Cached, hashes: seq<Hash>): Cached {
    if |hashes| == 0 then c
    else Recomputed(AfterAll(c, hashes[..|hashes| - 1]), hashes[|hashes| - 1])
  }

  function Extended(d: seq<Hash>, h: Hash): seq<Hash> {
    if |d| > 0 && d[|d| - 1] == h then d else d + [h]
  }

  /** A history without adjacent repeats. */
  function Distinct(hashes: seq<Hash>): (d: seq<Hash>)
    ensures |d| == 0 <==> |hashes| == 0
    ensures |d| > 0 ==> d[|d| - 1] == hashes[|hashes| - 1]
    ensures forall i :: 0 < i < |d| ==> d[i - 1] != d[i]
  {
    if |hashes| == 0 then [] else Extended(Distinct(hashes[..|hashes| - 1]), hashes[|hashes| - 1])
  }

  /** The last two entries of a history, empty where there is none. */
  function LastTwo(d: seq<Hash>): Cached {
    Cached(if |d| >= 1 then d[|d| - 1] else "", if |d| >= 2 then d[|d| - 2] else "")
  }

  /**
   After initialising with the first hash and recomputing the others, current and previous are the
   last two entries of the history of computed hashes with adjacent repeats removed.
   */
  lemma {:induction false} CacheRefinesHistory(hashes: seq<Hash>)
    requires |hashes| > 0
    ensures AfterAll(Cached(hashes[0], ""), hashes[1..]) == LastTwo(Distinct(hashes))
    decreases |hashes|
  {
    var last := |hashes| - 1;
    if last == 0 {
      assert Distinct(hashes) == [hashes[0]];
    } else {
      CacheRefinesHistory(hashes[..last]);
      var rest := hashes[1..];
      assert hashes[..last][1..] == rest[..last - 1] && rest[last - 1] == hashes[last];
      assert AfterAll(Cached(hashes[0], ""), rest)
          == Recomputed(AfterAll(Cached(hashes[0], ""), rest[..last - 1]), hashes[last]);
    }
  }

  class Cache {
    var schemaHash: string
    var previousHash: string
    var managed: bool
    var tables: seq<string>

    ghost function View(): Cached
      reads this
    {
      Cached(schemaHash, previousHash)
    }

    constructor ()
      ensures View() == Cached("", "") && !managed && tables == []
    {
      schemaHash, previousHash, managed, tables := "", "", false, [];
    }

    /** `computed` is the fingerprint of the tables, if computing it succeeds. */
    method Initialize(computed: Option<Hash>, tables: seq<string>) returns (ok: bool)
      modifies this
      ensures ok == computed.Some?
      ensures ok ==> View() == Cached(computed.value, old(previousHash)) && managed && this.tables == tables
      ensures !ok ==> View() == old(View()) && managed == old(managed) && this.tables == old(this.tables)
    {
      if computed == None {
        return false;
      }
      schemaHash := computed.value;
      managed := true;
      this.tables := tables;
      return true;
    }

    method Recompute(computed: Option<Hash>) returns (r: Option<Hash>)
      requires managed
      modifies this`schemaHash, this`previousHash
      ensures r == computed
      ensures View() == if computed.Some? then Recomputed(old(View()), computed.value) else old(View())
    {
      if computed == None {
        return None;
      }
      var hash := computed.value;
      if hash != schemaHash && schemaHash != "" {
        previousHash := schemaHash;
      }
      schemaHash := hash;
      return Some(hash);
    }
  }
}
