/**
 The part of CBOR (RFC 8949) that the sequence map file uses: definite-length maps from text
 strings to unsigned integers, with every head in its shortest form (sections 3, 3.1 and 4.1).
 */
module Cbor {
  import opened Wrappers

  type byte = x: int | 0 <= x < 256

  const LIMIT64: int := 0x1_0000_0000_0000_0000

  type uint64 = x: int | 0 <= x < 0x1_0000_0000_0000_0000

  /** UTF-8 bytes of a stream name. */
  type Name = n: seq<byte> | |n| < 0x1_0000_0000_0000_0000

  type Pair = (Name, uint64)

  const UNSIGNED := 0
  const TEXT := 3
  const MAP := 5

  // ---------- big-endian arguments ----------

  function Pow256(width: nat): nat {
    if width == 0 then 1 else 256 * Pow256(width - 1)
  }

  function BigEndian(n: nat, width: nat): (bytes: seq<byte>)
    ensures |bytes| == width
  {
    if width == 0 then [] else BigEndian(n / 256, width - 1) + [n % 256]
  }

  function FromBigEndian(bytes: seq<byte>): nat {
    if |bytes| == 0 then 0 else 256 * FromBigEndian(bytes[..|bytes| - 1]) + bytes[|bytes| - 1]
  }

  lemma {:induction false} BigEndianRoundTrip(n: nat, width: nat)
    requires n < Pow256(width)
    ensures FromBigEndian(BigEndian(n, width)) == n
    decreases width
  {
    if width == 0 {
    } else {
      BigEndianRoundTrip(n / 256, width - 1);
      assert BigEndian(n, width)[..width - 1] == BigEndian(n / 256, width - 1);
    }
  }

  // ---------- heads ----------

  /** Additional information for an argument that does not fit the initial byte. */
  function Info(n: uint64): nat
    requires n >= 24
  {
    if n < 0x100 then 24 else if n < 0x1_0000 then 25 else if n < 0x1_0000_0000 then 26 else 27
  }

  function ArgumentWidth(info: nat): nat
    requires 24 <= info <= 27
  {
    if info == 24 then 1 else if info == 25 then 2 else if info == 26 then 4 else 8
  }

  /** Initial byte and argument, in the shortest form. */
  function Head(major: nat, n: uint64): seq<byte>
    requires major < 8
  {
    if n < 24 then [major * 32 + n]
    else [major * 32 + Info(n)] + BigEndian(n, ArgumentWidth(Info(n)))
  }

  datatype Parsed<+T> = Malformed | Parsed(value: T, rest: seq<byte>)

  function ParseHead(major: nat, input: seq<byte>): Parsed<nat> {
    if |input| == 0 || input[0] / 32 != major then Malformed
    else
      var info := input[0] % 32;
      if info < 24 then Parsed(info, input[1..])
      else if info > 27 then Malformed
      else
        var width := ArgumentWidth(info);
        if |input| < 1 + width then Malformed
        else Parsed(FromBigEndian(input[1..1 + width]), input[1 + width..])
  }

  lemma WidthsSuffice(n: uint64)
    requires n >= 24
    ensures n < Pow256(ArgumentWidth(Info(n)))
  {
    assert Pow256(1) == 0x100;
    assert Pow256(2) == 0x1_0000;
    assert Pow256(4) == 256 * (256 * (256 * Pow256(1))) == 0x1_0000_0000;
    assert Pow256(8) == 256 * (256 * (256 * (256 * Pow256(4)))) == 0x1_0000_0000_0000_0000;
  }

  lemma HeadRoundTrip(major: nat, n: uint64, rest: seq<byte>)
    requires major < 8
    ensures ParseHead(major, Head(major, n) + rest) == Parsed(n, rest)
  {
    if n < 24 {
      assert [major * 32 + n] + [] == Head(major, n);
    } else {
      WidthsSuffice(n);
      BigEndianRoundTrip(n, ArgumentWidth(Info(n)));
    }
  }

  /** A larger argument never gets a shorter head. */
  lemma HeadMonotone(major: nat, n: uint64, n': uint64)
    requires major < 8 && n <= n'
    ensures |Head(major, n)| <= |Head(major, n')|
  {
  }

  /** A head takes as few bytes as its argument allows (RFC 8949, section 4.1). */
  lemma HeadIsShortest(major: nat, n: uint64)
    requires major < 8
    ensures |Head(major, n)| == if n <= 23 then 1 else if n <= 255 then 2 else if n <= 65535 then 3
                                else if n <= 4294967295 then 5 else 9
    ensures Head(major, n)[0] / 32 == major
  {
    FirstByteMajor(major, if n < 24 then n else Info(n));
  }

  lemma FirstByteMajor(major: nat, low: nat)
    requires major < 8 && low < 32
    ensures (major * 32 + low) / 32 == major
  {
  }

  // ---------- text strings and pairs ----------

  function EncodePair(p: Pair): seq<byte> {
    Head(TEXT, |p.0|) + p.0 + Head(UNSIGNED, p.1)
  }

  function ParsePair(input: seq<byte>): Parsed<Pair> {
    match ParseHead(TEXT, input)
    case Malformed => Malformed
    case Parsed(length, rest) =>
      if |rest| < length || length >= LIMIT64 then Malformed
      else
        match ParseHead(UNSIGNED, rest[length..])
        case Malformed => Malformed
        case Parsed(v, rest') => if v >= LIMIT64 then Malformed else Parsed((rest[..length], v), rest')
  }

  lemma PairRoundTrip(p: Pair, rest: seq<byte>)
    ensures ParsePair(EncodePair(p) + rest) == Parsed(p, rest)
  {
    var tail := p.0 + (Head(UNSIGNED, p.1) + rest);
    assert EncodePair(p) + rest == Head(TEXT, |p.0|) + tail;
    HeadRoundTrip(TEXT, |p.0|, tail);
    assert tail[..|p.0|] == p.0 && tail[|p.0|..] == Head(UNSIGNED, p.1) + rest;
    HeadRoundTrip(UNSIGNED, p.1, rest);
  }

  function EncodePairs(ps: seq<Pair>): seq<byte> {
    if |ps| == 0 then [] else EncodePair(ps[0]) + EncodePairs(ps[1..])
  }

  function ParsePairs(count: nat, input: seq<byte>): Parsed<seq<Pair>> {
    if count == 0 then Parsed([], input)
    else
      match ParsePair(input)
      case Malformed => Malformed
      case Parsed(p, rest) =>
        match ParsePairs(count - 1, rest)
        case Malformed => Malformed
        case Parsed(ps, rest') => Parsed([p] + ps, rest')
  }

  lemma {:induction false} PairsRoundTrip(ps: seq<Pair>, rest: seq<byte>)
    ensures ParsePairs(|ps|, EncodePairs(ps) + rest) == Parsed(ps, rest)
  {
    if |ps| > 0 {
      var tail := EncodePairs(ps[1..]) + rest;
      assert EncodePairs(ps) + rest == EncodePair(ps[0]) + tail;
      PairRoundTrip(ps[0], tail);
      PairsRoundTrip(ps[1..], rest);
      assert [ps[0]] + ps[1..] == ps;
    } else {
      assert EncodePairs(ps) + rest == rest;
    }
  }

  // ---------- maps ----------

  /** The map that a list of pairs denotes; a repeated key keeps its last value. */
  function MapOf(ps: seq<Pair>): map<Name, uint64> {
    if |ps| == 0 then map[] else MapOf(ps[..|ps| - 1])[ps[|ps| - 1].0 := ps[|ps| - 1].1]
  }

  ghost predicate DistinctKeys(ps: seq<Pair>) {
    forall i, j :: 0 <= i < j < |ps| ==> ps[i].0 != ps[j].0
  }

  /** `ps` lists the entries of `m`, in some order. */
  ghost predicate Lists(ps: seq<Pair>, m: map<Name, uint64>) {
    DistinctKeys(ps)
    && (forall i :: 0 <= i < |ps| ==> ps[i].0 in m && m[ps[i].0] == ps[i].1)
    && (forall k :: k in m ==> exists i :: 0 <= i < |ps| && ps[i].0 == k)
  }

  lemma {:induction false} MapOfListed(ps: seq<Pair>, m: map<Name, uint64>)
    requires Lists(ps, m)
    ensures MapOf(ps) == m
  {
    MapOfEntries(ps, m);
    forall k | k in m ensures k in MapOf(ps) && MapOf(ps)[k] == m[k] {
      var i :| 0 <= i < |ps| && ps[i].0 == k;
    }
  }

  lemma {:induction false} MapOfEntries(ps: seq<Pair>, m: map<Name, uint64>)
    requires forall i :: 0 <= i < |ps| ==> ps[i].0 in m && m[ps[i].0] == ps[i].1
    ensures forall i :: 0 <= i < |ps| ==> ps[i].0 in MapOf(ps)
    ensures forall k :: k in MapOf(ps) ==> k in m && MapOf(ps)[k] == m[k]
  {
    if |ps| == 0 {
    } else {
      MapOfEntries(ps[..|ps| - 1], m);
      assert forall i :: 0 <= i < |ps| - 1 ==> ps[..|ps| - 1][i] == ps[i];
    }
  }

  function EncodeMap(ps: seq<Pair>): seq<byte>
    requires |ps| < LIMIT64
  {
    Head(MAP, |ps|) + EncodePairs(ps)
  }

  /** Decodes one map from the front of the input and ignores what follows it. */
  function DecodeMap(input: seq<byte>): Option<map<Name, uint64>> {
    match ParseHead(MAP, input)
    case Malformed => None
    case Parsed(count, rest) =>
      match ParsePairs(count, rest)
      case Malformed => None
      case Parsed(ps, _) => Some(MapOf(ps))
  }

  /** Decoding undoes encoding, whatever the order of the entries and whatever follows. */
  lemma MapRoundTrip(ps: seq<Pair>, m: map<Name, uint64>, rest: seq<byte>)
    requires Lists(ps, m) && |ps| < LIMIT64
    ensures DecodeMap(EncodeMap(ps) + rest) == Some(m)
  {
    assert EncodeMap(ps) + rest == Head(MAP, |ps|) + (EncodePairs(ps) + rest);
    HeadRoundTrip(MAP, |ps|, EncodePairs(ps) + rest);
    PairsRoundTrip(ps, rest);
    MapOfListed(ps, m);
  }

  /**
   The bytes themselves, as in the examples of RFC 8949, appendix A: text strings have major type 3
   and maps major type 5, and arguments are big-endian.
   */
  lemma EncodedBytes(name: Name)
    requires |name| == 1
    ensures EncodeMap([]) == [0xa0]
    ensures EncodeMap([(name, 1)]) == [0xa1, 0x61, name[0], 0x01]
    ensures EncodeMap([(name, 1000)]) == [0xa1, 0x61, name[0], 0x19, 0x03, 0xe8]
  {
    assert EncodePairs([]) == [];
    SingleEntry((name, 1));
    SingleEntry((name, 1000));
    PairBytes(name, 1, [0x01]);
    ThousandBytes();
    PairBytes(name, 1000, [0x19, 0x03, 0xe8]);
  }

  lemma ThousandBytes()
    ensures Head(UNSIGNED, 1000) == [0x19, 0x03, 0xe8]
  {
    assert BigEndian(3, 1) == BigEndian(0, 0) + [0x03];
    assert BigEndian(1000, 2) == BigEndian(3, 1) + [0xe8];
  }

  lemma PairBytes(name: Name, v: uint64, head: seq<byte>)
    requires |name| == 1 && Head(UNSIGNED, v) == head
    ensures EncodePair((name, v)) == [0x61, name[0]] + head
  {
    assert Head(TEXT, 1) == [0x61];
    assert [0x61] + name == [0x61, name[0]];
  }

  lemma SingleEntry(p: Pair)
    ensures EncodeMap([p]) == [0xa1] + EncodePair(p)
  {
    assert [p][1..] == [];
    assert EncodePairs([p]) == EncodePair(p) + EncodePairs([]);
    assert EncodePairs([]) == [];
  }

  // ---------- encodings of growing maps do not get shorter ----------

  function Without<T>(xs: seq<T>, i: nat): seq<T>
    requires i < |xs|
  {
    xs[..i] + xs[i + 1..]
  }

  lemma {:induction false} EncodePairsWithout(ps: seq<Pair>, i: nat)
    requires i < |ps|
    ensures |EncodePairs(ps)| == |EncodePair(ps[i])| + |EncodePairs(Without(ps, i))|
  {
    if i == 0 {
      assert Without(ps, 0) == ps[1..];
    } else {
      EncodePairsWithout(ps[1..], i - 1);
      assert Without(ps, i)[1..] == Without(ps[1..], i - 1);
    }
  }

  ghost predicate HasAtLeast(qs: seq<Pair>, p: Pair) {
    exists j :: 0 <= j < |qs| && qs[j].0 == p.0 && p.1 <= qs[j].1
  }

  /** Every entry of `ps` is in `qs` with at least its value. */
  ghost predicate GrownTo(ps: seq<Pair>, qs: seq<Pair>) {
    forall i :: 0 <= i < |ps| ==> HasAtLeast(qs, ps[i])
  }

  lemma {:induction false} GrownIsNotShorter(ps: seq<Pair>, qs: seq<Pair>)
    requires DistinctKeys(ps) && DistinctKeys(qs) && GrownTo(ps, qs)
    ensures |ps| <= |qs| && |EncodePairs(ps)| <= |EncodePairs(qs)|
    decreases |ps|
  {
    if |ps| == 0 {
    } else {
      assert HasAtLeast(qs, ps[0]);
      var j :| 0 <= j < |qs| && qs[j].0 == ps[0].0 && ps[0].1 <= qs[j].1;
      var rest := Without(qs, j);
      forall i | 0 <= i < |ps[1..]| ensures HasAtLeast(rest, ps[1..][i]) {
        assert ps[1..][i] == ps[i + 1] && ps[i + 1].0 != ps[0].0 && HasAtLeast(qs, ps[i + 1]);
        var k :| 0 <= k < |qs| && qs[k].0 == ps[i + 1].0 && ps[i + 1].1 <= qs[k].1;
        assert rest[if k < j then k else k - 1] == qs[k];
      }
      GrownIsNotShorter(ps[1..], rest);
      EncodePairsWithout(qs, j);
      HeadMonotone(UNSIGNED, ps[0].1, qs[j].1);
    }
  }

  /** A map that gained entries or larger values never has a shorter encoding. */
  lemma MapNotShorter(ps: seq<Pair>, m: map<Name, uint64>, qs: seq<Pair>, m': map<Name, uint64>)
    requires Lists(ps, m) && Lists(qs, m') && |ps| < LIMIT64 && |qs| < LIMIT64
    requires forall k :: k in m ==> k in m' && m[k] <= m'[k]
    ensures |EncodeMap(ps)| <= |EncodeMap(qs)|
  {
    forall i | 0 <= i < |ps| ensures HasAtLeast(qs, ps[i]) {
      assert ps[i].0 in m';
      var j :| 0 <= j < |qs| && qs[j].0 == ps[i].0;
    }
    GrownIsNotShorter(ps, qs);
    HeadMonotone(MAP, |ps|, |qs|);
  }
}
