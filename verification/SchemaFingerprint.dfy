/**
 The bytes that are hashed to fingerprint a database schema, and when two schemas share them.
 */
module SchemaFingerprint {
  import opened Wrappers
  import opened Sorting

  /** An inspected column; `described` is the name of its type's Go representation, if it has one. */
  datatype ColumnDef = ColumnDef(name: string, raw: string, described: Option<string>, nullable: bool)

  /** An inspected table; a part of a primary key may be an expression instead of a column. */
  datatype TableDef = TableDef(name: string, columns: seq<ColumnDef>, primaryKey: Option<seq<Option<string>>>)

  function ColumnName(c: ColumnDef): string { c.name }

  function TableName(t: TableDef): string { t.name }

  function TypeText(c: ColumnDef): string {
    if c.raw == "" && c.described.Some? then c.described.value else c.raw
  }

  predicate InPrimaryKey(t: TableDef, column: string) {
    t.primaryKey.Some? && Some(column) in t.primaryKey.value
  }

  function BoolText(b: bool): string {
    if b then "true" else "false"
  }

  // ---------- what is written ----------

  /** What a fingerprint says about one column. */
  datatype Fact = Fact(column: string, kind: string, notNull: bool, inKey: bool)

  function FactName(f: Fact): string { f.column }

  function FactOf(t: TableDef, c: ColumnDef): Fact {
    Fact(c.name, TypeText(c), !c.nullable, InPrimaryKey(t, c.name))
  }

  /** A separator in front of some text. */
  function Sep(c: char, rest: string): (r: string)
    ensures |r| == 1 + |rest| && r[0] == c && r[1..] == rest
    ensures forall x :: x in r <==> x == c || x in rest
  {
    [c] + rest
  }

  /** The two flags that end the text of a column. */
  function Flags(notNull: bool, inKey: bool): string {
    Sep(':', BoolText(notNull) + Sep(':', BoolText(inKey)))
  }

  function FactText(f: Fact): string {
    f.column + Sep(':', f.kind + Flags(f.notNull, f.inKey))
  }

  function FactsText(fs: seq<Fact>): string {
    if |fs| == 0 then "" else Sep('|', FactText(fs[0]) + FactsText(fs[1..]))
  }

  function FactsIn(t: TableDef, columns: seq<ColumnDef>): (fs: seq<Fact>)
    ensures |fs| == |columns| && forall i :: 0 <= i < |fs| ==> fs[i] == FactOf(t, columns[i])
  {
    seq(|columns|, i requires 0 <= i < |columns| => FactOf(t, columns[i]))
  }

  /** A table in canonical form: its name and its column facts ordered by column name. */
  datatype Canonical = Canonical(name: string, facts: seq<Fact>)

  function CanonicalName(c: Canonical): string { c.name }

  function CanonicalOf(t: TableDef): Canonical {
    Canonical(t.name, FactsIn(t, Sort(t.columns, ColumnName)))
  }

  function CanonicalsIn(ts: seq<TableDef>): (cs: seq<Canonical>)
    ensures |cs| == |ts| && forall i :: 0 <= i < |cs| ==> cs[i] == CanonicalOf(ts[i])
  {
    seq(|ts|, i requires 0 <= i < |ts| => CanonicalOf(ts[i]))
  }

  function LineText(c: Canonical): string {
    c.name + FactsText(c.facts)
  }

  function LinesText(cs: seq<Canonical>): string {
    if |cs| == 0 then "" else LineText(cs[0]) + Sep('\n', LinesText(cs[1..]))
  }

  /** The bytes written to the hasher for the selected tables, in whatever order they are inspected. */
  function Written(selected: seq<TableDef>): string {
    LinesText(CanonicalsIn(Sort(selected, TableName)))
  }

  // ---------- what it should depend on ----------

  function Facts(t: TableDef): set<Fact> {
    set i | 0 <= i < |t.columns| :: FactOf(t, t.columns[i])
  }

  /** The selected tables as a set: names with their sets of column facts. */
  function Meaning(selected: seq<TableDef>): set<(string, set<Fact>)> {
    set i | 0 <= i < |selected| :: (selected[i].name, Facts(selected[i]))
  }

  /** Table names are unique, and column names within each table, as SQLite keeps them. */
  ghost predicate UniquelyNamed(selected: seq<TableDef>) {
    DistinctNames(selected, TableName)
    && forall i :: 0 <= i < |selected| ==> DistinctNames(selected[i].columns, ColumnName)
  }

  /** The characters that can follow the text of a column. */
  predicate Ends(c: char) {
    c == '|' || c == '\n'
  }

  /** The first `j` characters end like the text of a column. */
  predicate LooksComplete(text: string, j: nat) {
    j <= |text| && exists notNull: bool, inKey: bool :: EndsIn(text[..j], Flags(notNull, inKey))
  }

  predicate EndsIn(text: string, end: string) {
    |end| <= |text| && text[|text| - |end|..] == end
  }

  /** A type can be taken apart where flags are followed by a bar or a line end and then by the start of a name. */
  predicate Splits(kind: string, j: nat) {
    j < |kind| && LooksComplete(kind, j)
    && ((kind[j] == '|' && j + 1 < |kind| && kind[j + 1] != ':')
        || (kind[j] == '\n' && (j + 1 == |kind| || kind[j + 1] != '|')))
  }

  /** Nowhere can the type be taken apart. */
  predicate Closed(kind: string) {
    forall j :: 0 <= j < |kind| ==> !Splits(kind, j)
  }

  /** How the text behind a column begins: with a column or a table that has a name, or with the last line end. */
  predicate Follows(x: string) {
    |x| > 0 && ((x[0] == '|' && |x| > 1 && x[1] != ':') || (x[0] == '\n' && (|x| == 1 || x[1] != '|')))
  }

  /**
   Each field can be told from what follows it: a table name holds no `|`, a column name no `:`,
   and a type is closed. Types without `:` are closed, and so are types without `|` and line ends.
   Tables have columns, as SQLite requires.
   */
  ghost predicate Readable(selected: seq<TableDef>) {
    UniquelyNamed(selected) && forall i :: 0 <= i < |selected| ==> ReadableTable(selected[i])
  }

  ghost predicate ReadableTable(t: TableDef) {
    PlainlyNamed(t) && forall i :: 0 <= i < |t.columns| ==> Closed(TypeText(t.columns[i]))
  }

  /** The names of a table and its columns can be told from what follows them. */
  ghost predicate PlainlyNamed(t: TableDef) {
    '|' !in t.name && |t.columns| > 0 && forall i :: 0 <= i < |t.columns| ==> ':' !in t.columns[i].name
  }

  // ---------- unique reading ----------

  lemma Associative(a: string, b: string, c: string)
    ensures (a + b) + c == a + (b + c)
  {
  }

  lemma SameLength(a: string, x: string, b: string, y: string)
    requires a + x == b + y && |a| == |b|
    ensures a == b && x == y
  {
    assert a == (a + x)[..|a|] && b == (b + y)[..|b|];
    assert x == (a + x)[|a|..] && y == (b + y)[|b|..];
  }

  /** Text up to the first separator is determined. */
  lemma SplitAt(a: string, x: string, b: string, y: string, sep: char)
    requires sep !in a && sep !in b && a + Sep(sep, x) == b + Sep(sep, y)
    ensures a == b && x == y
  {
    var text := a + Sep(sep, x);
    assert text[|a|] == sep && text[|b|] == sep;
    assert (b + Sep(sep, y))[|a|] == sep && (a + Sep(sep, x))[|b|] == sep;
    SameLength(a, Sep(sep, x), b, Sep(sep, y));
  }

  /** Text after the last separator is determined. */
  lemma SplitLast(a: string, x: string, b: string, y: string, sep: char)
    requires sep !in x && sep !in y && a + Sep(sep, x) == b + Sep(sep, y)
    ensures a == b && x == y
  {
    var text := a + Sep(sep, x);
    assert text[|a|] == sep && text[|b|] == sep;
    assert (b + Sep(sep, y))[|a|] == sep && (a + Sep(sep, x))[|b|] == sep;
    SameLength(a, Sep(sep, x), b, Sep(sep, y));
  }

  /** Flags at the end of a text can be read off it. */
  lemma FlagsUnique(k: string, a: bool, b: bool, k': string, a': bool, b': bool)
    requires k + Flags(a, b) == k' + Flags(a', b')
    ensures k == k' && a == a' && b == b'
  {
    var x, x' := Sep(':', BoolText(a)), Sep(':', BoolText(a'));
    FlagsSplit(k, a, b);
    FlagsSplit(k', a', b');
    SplitLast(k + x, BoolText(b), k' + x', BoolText(b'), ':');
    SplitLast(k, BoolText(a), k', BoolText(a'), ':');
  }

  lemma FlagsSplit(k: string, a: bool, b: bool)
    ensures k + Flags(a, b) == (k + Sep(':', BoolText(a))) + Sep(':', BoolText(b))
  {
  }

  lemma TextBehind(k: string, f: string, x: string)
    ensures var text := k + (f + x); EndsIn(text[..|k| + |f|], f) && text[|k| + |f|..] == x
  {
    assert (k + (f + x))[..|k| + |f|] == k + f;
  }

  /** A type of which a first part with flags and the text behind a column are known can be taken apart. */
  lemma SplitsThere(text: string, p: nat, a: bool, b: bool, k': string, z: string)
    requires text == k' + z && p < |k'| && EndsIn(text[..p], Flags(a, b)) && z != "" && z[0] == ':'
    requires Follows(text[p..])
    ensures Splits(k', p)
  {
    assert k'[..p] == text[..p] && k'[p] == text[p..][0];
    assert EndsIn(k'[..p], Flags(a, b));
    assert text[p..][1] == text[p + 1];
    assert text[p + 1] == if p + 1 < |k'| then k'[p + 1] else z[0];
  }

  lemma StartsWithColon(a: bool, b: bool, y: string)
    ensures Flags(a, b) + y != "" && (Flags(a, b) + y)[0] == ':'
  {
  }

  /** A type that goes on after flags and the text behind a column is not closed. */
  lemma GoesOn(k: string, a: bool, b: bool, f: string, x: string, k': string, z: string)
    requires k + (f + x) == k' + z && f == Flags(a, b) && Follows(x) && z != "" && z[0] == ':'
    ensures |k| + |f| < |k'| ==> !Closed(k')
  {
    TextBehind(k, f, x);
    CutsType(k + (f + x), |k| + |f|, a, b, f, k', z);
  }

  lemma CutsType(text: string, p: nat, a: bool, b: bool, f: string, k': string, z: string)
    requires text == k' + z && p <= |text| && EndsIn(text[..p], f) && f == Flags(a, b) && z != "" && z[0] == ':'
    requires Follows(text[p..])
    ensures p < |k'| ==> !Closed(k')
  {
    if p < |k'| {
      SplitsThere(text, p, a, b, k', z);
    }
  }

  /** No end lies within flags. */
  lemma NotWithin(k: string, a: bool, b: bool, y: string, p: nat)
    requires p < |k + (Flags(a, b) + y)|
    ensures |k| <= p < |k| + |Flags(a, b)| ==> !Ends((k + (Flags(a, b) + y))[p])
  {
    if |k| <= p < |k| + |Flags(a, b)| {
      assert (k + (Flags(a, b) + y))[p] == Flags(a, b)[p - |k|];
    }
  }

  /** Of two readings of a text whose types are closed, none is shorter. */
  lemma NoShorterReading(k: string, a: bool, b: bool, x: string, k': string, a': bool, b': bool, y: string)
    requires k + (Flags(a, b) + x) == k' + (Flags(a', b') + y) && Closed(k') && Follows(x)
    ensures |k| + |Flags(a, b)| >= |k'| + |Flags(a', b')|
  {
    var text, p := k + (Flags(a, b) + x), |k| + |Flags(a, b)|;
    assert text[p] == x[0];
    StartsWithColon(a', b', y);
    GoesOn(k, a, b, Flags(a, b), x, k', Flags(a', b') + y);
    NotWithin(k', a', b', y, p);
  }

  lemma KindUnique(k: string, a: bool, b: bool, x: string, k': string, a': bool, b': bool, y: string)
    requires k + (Flags(a, b) + x) == k' + (Flags(a', b') + y) && Closed(k) && Closed(k')
    requires Follows(x) && Follows(y)
    ensures k == k' && a == a' && b == b' && x == y
  {
    NoShorterReading(k, a, b, x, k', a', b', y);
    NoShorterReading(k', a', b', y, k, a, b, x);
    Associative(k, Flags(a, b), x);
    Associative(k', Flags(a', b'), y);
    SameLength(k + Flags(a, b), x, k' + Flags(a', b'), y);
    FlagsUnique(k, a, b, k', a', b');
  }

  predicate ReadableFact(f: Fact) {
    ':' !in f.column && Closed(f.kind)
  }

  lemma FactTextThen(f: Fact, x: string)
    ensures FactText(f) + x == f.column + Sep(':', f.kind + (Flags(f.notNull, f.inKey) + x))
  {
  }

  lemma FactTextUnique(f: Fact, x: string, g: Fact, y: string)
    requires ReadableFact(f) && ReadableFact(g) && FactText(f) + x == FactText(g) + y
    requires Follows(x) && Follows(y)
    ensures f == g && x == y
  {
    var kx, ky := f.kind + (Flags(f.notNull, f.inKey) + x), g.kind + (Flags(g.notNull, g.inKey) + y);
    FactTextThen(f, x);
    FactTextThen(g, y);
    SplitAt(f.column, kx, g.column, ky, ':');
    KindUnique(f.kind, f.notNull, f.inKey, x, g.kind, g.notNull, g.inKey, y);
  }

  /** The facts of a table can be read off the text up to the line end behind them. */
  lemma {:induction false} FactsTextUnique(fs: seq<Fact>, x: string, gs: seq<Fact>, y: string)
    requires forall f :: f in fs ==> ReadableFact(f)
    requires forall g :: g in gs ==> ReadableFact(g)
    requires NamedAfter(fs) && NamedAfter(gs) && Follows(Sep('\n', x)) && Follows(Sep('\n', y))
    requires FactsText(fs) + Sep('\n', x) == FactsText(gs) + Sep('\n', y)
    ensures fs == gs && x == y
    decreases |fs|
  {
    FactsFirst(fs, x);
    FactsFirst(gs, y);
    if |fs| == 0 {
    } else {
      assert fs[0] in fs && gs[0] in gs;
      var fx, gy := FactsText(fs[1..]) + Sep('\n', x), FactsText(gs[1..]) + Sep('\n', y);
      FactsFollow(fs, x);
      FactsFollow(gs, y);
      FactTextUnique(fs[0], fx, gs[0], gy);
      FactsTextUnique(fs[1..], x, gs[1..], y);
      assert fs == [fs[0]] + fs[1..] && gs == [gs[0]] + gs[1..];
    }
  }

  /** All facts but the first have a column name. */
  predicate NamedAfter(fs: seq<Fact>) {
    forall i :: 0 < i < |fs| ==> fs[i].column != ""
  }

  lemma FactsFollow(fs: seq<Fact>, x: string)
    requires |fs| > 0 && NamedAfter(fs) && Follows(Sep('\n', x)) && forall f :: f in fs ==> ReadableFact(f)
    ensures Follows(FactsText(fs[1..]) + Sep('\n', x)) && NamedAfter(fs[1..])
  {
    FactsFirst(fs[1..], x);
    if |fs| > 1 {
      var rest := FactsText(fs[2..]) + Sep('\n', x);
      assert fs[1..][1..] == fs[2..] && fs[1] in fs;
      assert (FactText(fs[1]) + rest)[0] == fs[1].column[0];
      assert fs[1].column[0] in fs[1].column;
    }
  }

  /** How the facts of a table and the line end behind them begin. */
  lemma FactsFirst(fs: seq<Fact>, x: string)
    ensures var text := FactsText(fs) + Sep('\n', x);
            |text| > 0
            && (|fs| == 0 ==> text == Sep('\n', x) && text[0] == '\n')
            && (|fs| > 0 ==> text == Sep('|', FactText(fs[0]) + (FactsText(fs[1..]) + Sep('\n', x))) && text[0] == '|')
  {
    if |fs| > 0 {
      Associative(FactText(fs[0]), FactsText(fs[1..]), Sep('\n', x));
      SepAssociative('|', FactText(fs[0]) + FactsText(fs[1..]), Sep('\n', x));
    }
  }

  predicate ReadableCanonical(c: Canonical) {
    '|' !in c.name && |c.facts| > 0 && NamedAfter(c.facts) && forall f :: f in c.facts ==> ReadableFact(f)
  }

  lemma LineTextUnique(c: Canonical, x: string, d: Canonical, y: string)
    requires ReadableCanonical(c) && ReadableCanonical(d) && Follows(Sep('\n', x)) && Follows(Sep('\n', y))
    requires LineText(c) + Sep('\n', x) == LineText(d) + Sep('\n', y)
    ensures c == d && x == y
  {
    var cx, dy := FactsText(c.facts) + Sep('\n', x), FactsText(d.facts) + Sep('\n', y);
    Associative(c.name, FactsText(c.facts), Sep('\n', x));
    Associative(d.name, FactsText(d.facts), Sep('\n', y));
    assert cx == Sep('|', cx[1..]) && dy == Sep('|', dy[1..]);
    SplitAt(c.name, cx[1..], d.name, dy[1..], '|');
    FactsTextUnique(c.facts, x, d.facts, y);
  }

  /** All tables but the first have a name. */
  predicate LinesNamed(cs: seq<Canonical>) {
    forall i :: 0 < i < |cs| ==> cs[i].name != ""
  }

  lemma LinesFollow(cs: seq<Canonical>)
    requires |cs| > 0 && LinesNamed(cs) && forall c :: c in cs ==> ReadableCanonical(c)
    ensures Follows(Sep('\n', LinesText(cs[1..]))) && LinesNamed(cs[1..])
  {
    if |cs| > 1 {
      assert cs[1] in cs && cs[1].name[0] in cs[1].name;
      assert LinesText(cs[1..])[0] == cs[1].name[0];
    }
  }

  lemma {:induction false} LinesTextUnique(cs: seq<Canonical>, ds: seq<Canonical>)
    requires forall c :: c in cs ==> ReadableCanonical(c)
    requires forall d :: d in ds ==> ReadableCanonical(d)
    requires LinesNamed(cs) && LinesNamed(ds)
    requires LinesText(cs) == LinesText(ds)
    ensures cs == ds
    decreases |cs|
  {
    if |cs| == 0 || |ds| == 0 {
      assert |cs| > 0 ==> |LinesText(cs)| > 0;
      assert |ds| > 0 ==> |LinesText(ds)| > 0;
    } else {
      assert cs[0] in cs && ds[0] in ds;
      LinesFollow(cs);
      LinesFollow(ds);
      LineTextUnique(cs[0], LinesText(cs[1..]), ds[0], LinesText(ds[1..]));
      LinesTextUnique(cs[1..], ds[1..]);
      assert cs == [cs[0]] + cs[1..] && ds == [ds[0]] + ds[1..];
    }
  }

  // ---------- canonical forms ----------

  lemma CanonicalFacts(t: TableDef)
    requires DistinctNames(t.columns, ColumnName)
    ensures Sorted(CanonicalOf(t).facts, FactName) && DistinctNames(CanonicalOf(t).facts, FactName)
    ensures forall f :: f in CanonicalOf(t).facts <==> f in Facts(t)
  {
    var sorted := Sort(t.columns, ColumnName);
    SortSorted(t.columns, ColumnName);
    SortKeeps(t.columns, ColumnName);
    var fs := CanonicalOf(t).facts;
    forall f | f in fs ensures f in Facts(t) {
      var i :| 0 <= i < |fs| && fs[i] == f;
      assert sorted[i] in t.columns;
      var j :| 0 <= j < |t.columns| && t.columns[j] == sorted[i];
    }
    forall f | f in Facts(t) ensures f in fs {
      var j :| 0 <= j < |t.columns| && FactOf(t, t.columns[j]) == f;
      assert t.columns[j] in sorted;
      var i :| 0 <= i < |sorted| && sorted[i] == t.columns[j];
      assert fs[i] == f;
    }
  }

  /** Tables with one name have one canonical form exactly when their column facts agree. */
  lemma CanonicalAgrees(t: TableDef, u: TableDef)
    requires DistinctNames(t.columns, ColumnName) && DistinctNames(u.columns, ColumnName)
    ensures CanonicalOf(t) == CanonicalOf(u) <==> (t.name, Facts(t)) == (u.name, Facts(u))
  {
    CanonicalFacts(t);
    CanonicalFacts(u);
    if Facts(t) == Facts(u) {
      SortedUnique(CanonicalOf(t).facts, CanonicalOf(u).facts, FactName);
    }
    if CanonicalOf(t) == CanonicalOf(u) {
      assert Facts(t) == Facts(u);
    }
  }

  lemma CanonicalNames(ts: seq<TableDef>)
    requires Sorted(ts, TableName) && DistinctNames(ts, TableName)
    ensures Sorted(CanonicalsIn(ts), CanonicalName) && DistinctNames(CanonicalsIn(ts), CanonicalName)
  {
  }

  lemma CanonicalsOrdered(ts: seq<TableDef>)
    requires DistinctNames(ts, TableName)
    ensures var cs := CanonicalsIn(Sort(ts, TableName)); Sorted(cs, CanonicalName) && DistinctNames(cs, CanonicalName)
    ensures forall c :: c in CanonicalsIn(Sort(ts, TableName)) <==> exists t :: t in ts && CanonicalOf(t) == c
  {
    var sorted := Sort(ts, TableName);
    SortSorted(ts, TableName);
    SortKeeps(ts, TableName);
    CanonicalNames(sorted);
    CanonicalMembers(sorted, ts);
  }

  lemma CanonicalMembers(sorted: seq<TableDef>, ts: seq<TableDef>)
    requires forall t :: t in sorted <==> t in ts
    ensures forall c :: c in CanonicalsIn(sorted) <==> exists t :: t in ts && CanonicalOf(t) == c
  {
    var cs := CanonicalsIn(sorted);
    forall c ensures c in cs <==> exists t :: t in ts && CanonicalOf(t) == c {
      if c in cs {
        var i :| 0 <= i < |cs| && cs[i] == c;
        assert sorted[i] in sorted;
      }
      if t :| t in ts && CanonicalOf(t) == c {
        assert t in sorted;
        var i :| 0 <= i < |sorted| && sorted[i] == t;
        assert cs[i] == c;
      }
    }
  }

  /** Only the first of several ordered names can be empty. */
  lemma OnlyFirstEmpty<T>(xs: seq<T>, name: T -> string, i: nat)
    requires Sorted(xs, name) && DistinctNames(xs, name) && 0 < i < |xs|
    ensures name(xs[i]) != ""
  {
    assert Leq(name(xs[0]), name(xs[i])) && name(xs[0]) != name(xs[i]);
  }

  lemma FactsNamed(t: TableDef)
    requires DistinctNames(t.columns, ColumnName)
    ensures NamedAfter(CanonicalOf(t).facts)
  {
    CanonicalFacts(t);
    var fs := CanonicalOf(t).facts;
    forall i | 0 < i < |fs| ensures fs[i].column != "" {
      OnlyFirstEmpty(fs, FactName, i);
    }
  }

  lemma CanonicalReadable(t: TableDef)
    requires ReadableTable(t) && DistinctNames(t.columns, ColumnName)
    ensures ReadableCanonical(CanonicalOf(t))
  {
    CanonicalFacts(t);
    FactsNamed(t);
    var c := CanonicalOf(t);
    forall f | f in c.facts ensures ReadableFact(f) {
      assert f in Facts(t);
      var j :| 0 <= j < |t.columns| && FactOf(t, t.columns[j]) == f;
      assert Closed(TypeText(t.columns[j]));
    }
    assert FactOf(t, t.columns[0]) in Facts(t);
  }

  lemma CanonicalsReadable(ts: seq<TableDef>)
    requires Readable(ts)
    ensures forall c :: c in CanonicalsIn(Sort(ts, TableName)) ==> ReadableCanonical(c)
  {
    CanonicalsOrdered(ts);
    forall c | c in CanonicalsIn(Sort(ts, TableName)) ensures ReadableCanonical(c) {
      var t :| t in ts && CanonicalOf(t) == c;
      var i :| 0 <= i < |ts| && ts[i] == t;
      CanonicalReadable(ts[i]);
    }
  }

  lemma CanonicalsNamed(ts: seq<TableDef>)
    requires UniquelyNamed(ts)
    ensures LinesNamed(CanonicalsIn(Sort(ts, TableName)))
  {
    CanonicalsOrdered(ts);
    var cs := CanonicalsIn(Sort(ts, TableName));
    forall i | 0 < i < |cs| ensures cs[i].name != "" {
      OnlyFirstEmpty(cs, CanonicalName, i);
    }
  }

  /** A member of one meaning has a table with the same canonical form in the other list. */
  lemma MatchTable(ts: seq<TableDef>, us: seq<TableDef>, t: TableDef)
    requires UniquelyNamed(ts) && UniquelyNamed(us) && t in ts
    ensures (t.name, Facts(t)) in Meaning(us) <==> exists u :: u in us && CanonicalOf(u) == CanonicalOf(t)
  {
    var i :| 0 <= i < |ts| && ts[i] == t;
    if (t.name, Facts(t)) in Meaning(us) {
      var j :| 0 <= j < |us| && (us[j].name, Facts(us[j])) == (t.name, Facts(t));
      assert us[j] in us;
      CanonicalAgrees(us[j], t);
    }
    if exists u :: u in us && CanonicalOf(u) == CanonicalOf(t) {
      var u :| u in us && CanonicalOf(u) == CanonicalOf(t);
      var j :| 0 <= j < |us| && us[j] == u;
      CanonicalAgrees(u, t);
    }
  }

  /**
   The fingerprint is canonical: two databases write the same bytes to the hasher exactly when
   their selected tables agree as sets of (column, type, not null, in primary key), whatever the
   order in which tables and columns are inspected.
   */
  lemma FingerprintCanonical(ts: seq<TableDef>, us: seq<TableDef>)
    requires Readable(ts) && Readable(us)
    ensures Written(ts) == Written(us) <==> Meaning(ts) == Meaning(us)
  {
    if Written(ts) == Written(us) {
      CanonicalsReadable(ts);
      CanonicalsReadable(us);
      CanonicalsNamed(ts);
      CanonicalsNamed(us);
      LinesTextUnique(CanonicalsIn(Sort(ts, TableName)), CanonicalsIn(Sort(us, TableName)));
      MeaningWithin(ts, us);
      MeaningWithin(us, ts);
    }
    if Meaning(ts) == Meaning(us) {
      FingerprintDeterministic(ts, us);
    }
  }

  // ---------- declarations ----------

  /** A column as it is declared, with some text for its type. */
  datatype Declared = Declared(column: string, text: string, nullable: bool, inKey: bool)

  /** The declarations of a table, with `text` for the types; a key part that is an expression is no column. */
  function Declarations(t: TableDef, text: ColumnDef -> string): set<Declared> {
    set i | 0 <= i < |t.columns| ::
      Declared(t.columns[i].name, text(t.columns[i]), t.columns[i].nullable,
               t.primaryKey.Some? && Some(t.columns[i].name) in t.primaryKey.value)
  }

  function Declares(selected: seq<TableDef>, text: ColumnDef -> string): set<(string, set<Declared>)> {
    set i | 0 <= i < |selected| :: (selected[i].name, Declarations(selected[i], text))
  }

  /** Every column's hashed type is the given text. */
  ghost predicate TypesAre(t: TableDef, text: ColumnDef -> string) {
    forall i :: 0 <= i < |t.columns| ==> TypeText(t.columns[i]) == text(t.columns[i])
  }

  lemma DeclaredFact(t: TableDef, text: ColumnDef -> string, d: Declared)
    requires TypesAre(t, text)
    ensures d in Declarations(t, text) <==> Fact(d.column, d.text, !d.nullable, d.inKey) in Facts(t)
  {
  }

  lemma DeclarationsAgree(t: TableDef, u: TableDef, text: ColumnDef -> string)
    requires TypesAre(t, text) && TypesAre(u, text)
    ensures Declarations(t, text) == Declarations(u, text) <==> Facts(t) == Facts(u)
  {
    forall d ensures (d in Declarations(t, text) <==> Fact(d.column, d.text, !d.nullable, d.inKey) in Facts(t))
                  && (d in Declarations(u, text) <==> Fact(d.column, d.text, !d.nullable, d.inKey) in Facts(u))
    {
      DeclaredFact(t, text, d);
      DeclaredFact(u, text, d);
    }
    if Declarations(t, text) == Declarations(u, text) {
      forall f ensures f in Facts(t) <==> f in Facts(u) {
        var d := Declared(f.column, f.kind, !f.notNull, f.inKey);
        assert d in Declarations(t, text) <==> d in Declarations(u, text);
      }
    }
  }

  /** Tables that are declared alike mean the same. */
  lemma DeclaresWithin(ts: seq<TableDef>, us: seq<TableDef>, text: ColumnDef -> string)
    requires forall i :: 0 <= i < |ts| ==> TypesAre(ts[i], text)
    requires forall i :: 0 <= i < |us| ==> TypesAre(us[i], text)
    ensures Declares(ts, text) <= Declares(us, text) <==> Meaning(ts) <= Meaning(us)
  {
    forall i, j | 0 <= i < |ts| && 0 <= j < |us|
      ensures Declarations(ts[i], text) == Declarations(us[j], text) <==> Facts(ts[i]) == Facts(us[j])
    {
      DeclarationsAgree(ts[i], us[j], text);
    }
    if Declares(ts, text) <= Declares(us, text) {
      forall m | m in Meaning(ts) ensures m in Meaning(us) {
        var i :| 0 <= i < |ts| && (ts[i].name, Facts(ts[i])) == m;
        assert (ts[i].name, Declarations(ts[i], text)) in Declares(us, text);
      }
    }
    if Meaning(ts) <= Meaning(us) {
      forall d | d in Declares(ts, text) ensures d in Declares(us, text) {
        var i :| 0 <= i < |ts| && (ts[i].name, Declarations(ts[i], text)) == d;
        assert (ts[i].name, Facts(ts[i])) in Meaning(us);
      }
    }
  }

  lemma DeclaredCanonical(ts: seq<TableDef>, us: seq<TableDef>, text: ColumnDef -> string)
    requires Readable(ts) && Readable(us)
    requires forall i :: 0 <= i < |ts| ==> TypesAre(ts[i], text)
    requires forall i :: 0 <= i < |us| ==> TypesAre(us[i], text)
    ensures Written(ts) == Written(us) <==> Declares(ts, text) == Declares(us, text)
  {
    FingerprintCanonical(ts, us);
    DeclaresWithin(ts, us, text);
    DeclaresWithin(us, ts, text);
  }

  function RawType(c: ColumnDef): string { c.raw }

  function DescribedType(c: ColumnDef): string {
    if c.described.Some? then c.described.value else ""
  }

  /**
   The declared types decide: where every column has a raw type, two databases write the same
   bytes exactly when their tables agree as sets of (column, raw type, nullable, in key), whatever
   the descriptions of the types say.
   */
  lemma RawTypesDecide(ts: seq<TableDef>, us: seq<TableDef>)
    requires Readable(ts) && Readable(us)
    requires forall i, j :: 0 <= i < |ts| && 0 <= j < |ts[i].columns| ==> ts[i].columns[j].raw != ""
    requires forall i, j :: 0 <= i < |us| && 0 <= j < |us[i].columns| ==> us[i].columns[j].raw != ""
    ensures Written(ts) == Written(us) <==> Declares(ts, RawType) == Declares(us, RawType)
  {
    DeclaredCanonical(ts, us, RawType);
  }

  /** Where no column has a raw type, the descriptions take its place. */
  lemma DescriptionsDecide(ts: seq<TableDef>, us: seq<TableDef>)
    requires Readable(ts) && Readable(us)
    requires forall i, j :: 0 <= i < |ts| && 0 <= j < |ts[i].columns| ==> ts[i].columns[j].raw == ""
    requires forall i, j :: 0 <= i < |us| && 0 <= j < |us[i].columns| ==> us[i].columns[j].raw == ""
    ensures Written(ts) == Written(us) <==> Declares(ts, DescribedType) == Declares(us, DescribedType)
  {
    DeclaredCanonical(ts, us, DescribedType);
  }

  /** Equal schemas always write equal bytes, whatever their names and however they are inspected. */
  lemma FingerprintDeterministic(ts: seq<TableDef>, us: seq<TableDef>)
    requires UniquelyNamed(ts) && UniquelyNamed(us) && Meaning(ts) == Meaning(us)
    ensures Written(ts) == Written(us)
  {
    SameCanonicals(ts, us);
  }

  lemma MeaningWithin(ts: seq<TableDef>, us: seq<TableDef>)
    requires UniquelyNamed(ts) && UniquelyNamed(us)
    requires CanonicalsIn(Sort(ts, TableName)) == CanonicalsIn(Sort(us, TableName))
    ensures Meaning(ts) <= Meaning(us)
  {
    CanonicalsOrdered(ts);
    CanonicalsOrdered(us);
    forall m | m in Meaning(ts) ensures m in Meaning(us) {
      var i :| 0 <= i < |ts| && (ts[i].name, Facts(ts[i])) == m;
      assert ts[i] in ts;
      assert CanonicalOf(ts[i]) in CanonicalsIn(Sort(us, TableName));
      MatchTable(ts, us, ts[i]);
    }
  }

  lemma SameCanonicals(ts: seq<TableDef>, us: seq<TableDef>)
    requires UniquelyNamed(ts) && UniquelyNamed(us) && Meaning(ts) == Meaning(us)
    ensures CanonicalsIn(Sort(ts, TableName)) == CanonicalsIn(Sort(us, TableName))
  {
    var cs, ds := CanonicalsIn(Sort(ts, TableName)), CanonicalsIn(Sort(us, TableName));
    CanonicalsOrdered(ts);
    CanonicalsOrdered(us);
    CanonicalsWithin(ts, us);
    CanonicalsWithin(us, ts);
    SortedUnique(cs, ds, CanonicalName);
  }

  lemma CanonicalsWithin(ts: seq<TableDef>, us: seq<TableDef>)
    requires UniquelyNamed(ts) && UniquelyNamed(us) && Meaning(ts) == Meaning(us)
    ensures forall c :: c in CanonicalsIn(Sort(ts, TableName)) ==> c in CanonicalsIn(Sort(us, TableName))
  {
    CanonicalsOrdered(ts);
    CanonicalsOrdered(us);
    forall c | c in CanonicalsIn(Sort(ts, TableName)) ensures c in CanonicalsIn(Sort(us, TableName)) {
      var t :| t in ts && CanonicalOf(t) == c;
      var i :| 0 <= i < |ts| && ts[i] == t;
      assert (t.name, Facts(t)) in Meaning(ts);
      MatchTable(ts, us, t);
    }
  }

  // ---------- why each condition is needed ----------

  lemma ClosedWithoutColon(kind: string)
    requires ':' !in kind
    ensures Closed(kind)
  {
  }

  lemma ClosedWithoutEnds(kind: string)
    requires '|' !in kind && '\n' !in kind
    ensures Closed(kind)
  {
  }

  lemma SortTwo<T>(a: T, b: T, name: T -> string)
    requires Leq(name(a), name(b))
    ensures Sort([a, b], name) == [a, b]
  {
  }

  function Keyless(name: string, columns: seq<ColumnDef>): TableDef {
    TableDef(name, columns, None)
  }

  /** The text of a column outside the primary key, with the bar in front. */
  function ColumnText(c: ColumnDef): string {
    Sep('|', c.name + Sep(':', TypeText(c) + Flags(!c.nullable, false)))
  }

  lemma OneColumnLine(t: TableDef)
    requires |t.columns| == 1
    ensures LineText(CanonicalOf(t)) == t.name + Sep('|', FactText(FactOf(t, t.columns[0])))
  {
    assert t.columns == [t.columns[0]];
    assert CanonicalOf(t).facts == [FactOf(t, t.columns[0])];
    OneFactText(FactOf(t, t.columns[0]));
  }

  lemma OneColumn(name: string, c: ColumnDef)
    ensures LineText(CanonicalOf(Keyless(name, [c]))) == name + ColumnText(c)
  {
    OneColumnLine(Keyless(name, [c]));
  }

  lemma OneTable(t: TableDef)
    ensures Written([t]) == LineText(CanonicalOf(t)) + "\n"
  {
    assert CanonicalsIn([t]) == [CanonicalOf(t)];
    OneLineText(CanonicalOf(t));
  }

  /** The bytes themselves, for a table with one column. */
  lemma OneColumnText(t: TableDef, c: ColumnDef, inKey: bool)
    requires t.columns == [c] && c.raw != ""
    requires inKey <==> t.primaryKey.Some? && Some(c.name) in t.primaryKey.value
    ensures Written([t])
         == t.name + ("|" + (c.name + (":" + (c.raw + (
            (if c.nullable then ":false" else ":true") + (if inKey then ":true" else ":false")))))) + "\n"
  {
    OneTable(t);
    OneColumnLine(t);
    FlagsText(!c.nullable, inKey);
    assert FactOf(t, c) == Fact(c.name, c.raw, !c.nullable, inKey);
  }

  lemma FlagsText(notNull: bool, inKey: bool)
    ensures Flags(notNull, inKey)
         == (if notNull then ":true" else ":false") + (if inKey then ":true" else ":false")
  {
  }

  lemma TwoColumnLine(t: TableDef)
    requires |t.columns| == 2 && Leq(t.columns[0].name, t.columns[1].name)
    ensures var a, b := FactOf(t, t.columns[0]), FactOf(t, t.columns[1]);
            LineText(CanonicalOf(t)) == t.name + (Sep('|', FactText(a)) + Sep('|', FactText(b)))
  {
    SortTwo(t.columns[0], t.columns[1], ColumnName);
    assert t.columns == [t.columns[0], t.columns[1]];
    var fa, fb := FactOf(t, t.columns[0]), FactOf(t, t.columns[1]);
    assert CanonicalOf(t).facts == [fa] + [fb];
    FactsTextSnoc([fa], fb);
    OneFactText(fa);
    OneFactText(fb);
  }

  lemma TwoTables(t: TableDef, u: TableDef)
    requires Leq(t.name, u.name)
    ensures Written([t, u]) == LineText(CanonicalOf(t)) + Sep('\n', LineText(CanonicalOf(u)) + "\n")
  {
    SortTwo(t, u, TableName);
    var ct, cu := CanonicalOf(t), CanonicalOf(u);
    assert CanonicalsIn([t, u]) == [ct] + [cu];
    LinesTextSnoc([ct], cu);
    OneLineText(ct);
    OneLineText(cu);
    assert (LineText(ct) + "\n") + (LineText(cu) + "\n") == LineText(ct) + Sep('\n', LineText(cu) + "\n");
  }

  lemma NamesDiffer(ts: seq<TableDef>, us: seq<TableDef>, i: nat)
    requires i < |ts|
    requires forall j :: 0 <= j < |us| ==> us[j].name != ts[i].name || Facts(us[j]) != Facts(ts[i])
    ensures Meaning(ts) != Meaning(us)
  {
    var m := (ts[i].name, Facts(ts[i]));
    assert m in Meaning(ts) && m !in Meaning(us);
  }

  lemma FactsDiffer(ts: seq<TableDef>, us: seq<TableDef>, f: Fact)
    requires |ts| == |us| == 1 && f in Facts(ts[0]) && f !in Facts(us[0])
    ensures Meaning(ts) != Meaning(us)
  {
    NamesDiffer(ts, us, 0);
  }

  /** Text behind a separated part goes into it. */
  lemma Glue(a: string, c: char, b: string, rest: string)
    ensures (a + Sep(c, b)) + rest == a + Sep(c, b + rest)
  {
  }

  lemma ReadableOne(name: string, c: ColumnDef)
    requires '|' !in name && ':' !in c.name && Closed(TypeText(c))
    ensures Readable([Keyless(name, [c])])
  {
  }

  /** A bar in a table name: every such name with a column collides with a readable schema. */
  lemma BarConfuses(x: string, y: string, c: ColumnDef)
    ensures var t, u := Keyless(x + Sep('|', y), [c]), Keyless(x, [c.(name := y + Sep('|', c.name))]);
            && Written([t]) == Written([u]) && Meaning([t]) != Meaning([u])
            && ('|' !in x && ':' !in y && ':' !in c.name && Closed(TypeText(c)) ==> Readable([u]))
  {
    var d := c.(name := y + Sep('|', c.name));
    var t, u := Keyless(x + Sep('|', y), [c]), Keyless(x, [d]);
    OneColumn(t.name, c);
    OneColumn(u.name, d);
    OneTable(t);
    OneTable(u);
    var rest := Sep(':', TypeText(c) + Flags(!c.nullable, false));
    Glue(x, '|', y, Sep('|', c.name + rest));
    Glue(y, '|', c.name, rest);
    NamesDiffer([t], [u], 0);
    if '|' !in x && ':' !in y && ':' !in c.name && Closed(TypeText(c)) {
      ReadableOne(x, d);
    }
  }

  /** A colon in a column name can as well belong to the type. */
  lemma ColonConfuses(name: string, x: string, y: string, kind: string, nullable: bool)
    ensures var c := ColumnDef(x + Sep(':', y), kind, None, nullable);
            var d := ColumnDef(x, y + Sep(':', kind), None, nullable);
            var t, u := Keyless(name, [c]), Keyless(name, [d]);
            && Written([t]) == Written([u]) && Meaning([t]) != Meaning([u])
            && ('|' !in name && ':' !in x && Closed(y + Sep(':', kind)) ==> Readable([u]))
  {
    var c, d := ColumnDef(x + Sep(':', y), kind, None, nullable), ColumnDef(x, y + Sep(':', kind), None, nullable);
    var t, u := Keyless(name, [c]), Keyless(name, [d]);
    OneColumn(name, c);
    OneColumn(name, d);
    OneTable(t);
    OneTable(u);
    var rest := Flags(!nullable, false);
    Glue(x, ':', y, Sep(':', kind + rest));
    Glue(y, ':', kind, rest);
    FactsDiffer([t], [u], FactOf(t, t.columns[0]));
    if '|' !in name && ':' !in x && Closed(y + Sep(':', kind)) {
      ReadableOne(name, d);
    }
  }

  /** A table with one column of the given type and a second, plain one. */
  function Host(kind: string): TableDef {
    Keyless("", [ColumnDef("", kind, None, true), ColumnDef("b", "", None, true)])
  }

  /** What follows the type in that table, up to the last flags. */
  function Rest(): string {
    Flags(false, false) + "|b:"
  }

  lemma Regroup(k: string, f: string, g: string, end: string)
    ensures ((k + f) + (g + f)) + end == k + ((f + g) + (f + end))
  {
  }

  lemma NamelessText(kind: string, notNull: bool, inKey: bool)
    ensures Sep('|', FactText(Fact("", kind, notNull, inKey))) == "|:" + (kind + Flags(notNull, inKey))
  {
    assert FactText(Fact("", kind, notNull, inKey)) == Sep(':', kind + Flags(notNull, inKey));
  }

  lemma PlainText(f: string)
    ensures Sep('|', "b" + Sep(':', "" + f)) == "|b:" + f
  {
    assert "" + f == f;
  }

  lemma HostText(kind: string)
    ensures Written([Host(kind)]) == ("|:" + kind) + (Rest() + (Flags(false, false) + "\n"))
  {
    var t, f := Host(kind), Flags(false, false);
    OneTable(t);
    TwoColumnLine(t);
    NamelessText(kind, false, false);
    PlainText(f);
    Associative("|:", kind, f);
    Regroup("|:" + kind, f, "|b:", "\n");
    assert FactOf(t, t.columns[0]) == Fact("", kind, false, false);
    assert FactOf(t, t.columns[1]) == Fact("b", "", false, false);
    NoName((("|:" + kind) + f) + ("|b:" + f));
  }

  lemma NoName(text: string)
    ensures "" + text == text
  {
  }

  /** Text up to the first separator and behind it. */
  lemma {:induction false} First(text: string, sep: char) returns (a: string, z: string)
    requires sep in text
    ensures text == a + Sep(sep, z) && sep !in a
  {
    if text[0] == sep {
      a, z := "", text[1..];
    } else {
      var b;
      b, z := First(text[1..], sep);
      a := [text[0]] + b;
      assert text == [text[0]] + text[1..];
    }
  }

  /** A column without a name of the given type and flags, alone in its table or with another column. */
  function Bare(kind: string, notNull: bool, inKey: bool, more: seq<ColumnDef>): TableDef {
    TableDef("", [ColumnDef("", kind, None, !notNull)] + more, if inKey then Some([Some("")]) else None)
  }

  lemma BareFact(kind: string, notNull: bool, inKey: bool, more: seq<ColumnDef>)
    ensures var t := Bare(kind, notNull, inKey, more); FactOf(t, t.columns[0]) == Fact("", kind, notNull, inKey)
  {
  }

  lemma BareMeaning(kind: string, us: seq<TableDef>, p: string, notNull: bool, inKey: bool, more: seq<ColumnDef>)
    requires |us| > 0 && us[0] == Bare(p, notNull, inKey, more) && p != kind
    ensures Meaning([Host(kind)]) != Meaning(us)
  {
    BareFact(p, notNull, inKey, more);
    var f := Fact("", p, notNull, inKey);
    assert us[0].columns[0] == ColumnDef("", p, None, !notNull);
    assert f in Facts(us[0]) && f !in Facts(Host(kind));
    NamesDiffer(us, [Host(kind)], 0);
  }

  lemma BarSplit(p: string, f: string, r: string, rest: string, x: string, z: string, g: string, end: string)
    requires r + rest == x + Sep(':', z)
    ensures ("|:" + (p + (f + Sep('|', r)))) + (rest + (g + end))
         == (("|:" + (p + f)) + Sep('|', x + Sep(':', z + g))) + end
  {
    var front := "|:" + (p + f);
    assert "|:" + (p + (f + Sep('|', r))) == front + Sep('|', r);
    Associative(front, Sep('|', r), rest + (g + end));
    assert Sep('|', r) + (rest + (g + end)) == Sep('|', (r + rest) + g) + end;
    Glue(x, ':', z, g);
    Associative(front, Sep('|', (r + rest) + g), end);
  }

  /** The partner of a type with flags, a bar and the start of a name inside. */
  lemma BarPartner(p: string, a: bool, b: bool, x: string, z: string)
    requires x != ""
    ensures Written([Bare(p, a, b, [ColumnDef(x, z, None, true)])])
         == (("|:" + (p + Flags(a, b))) + Sep('|', x + Sep(':', z + Flags(false, false)))) + "\n"
  {
    var u := Bare(p, a, b, [ColumnDef(x, z, None, true)]);
    BareFact(p, a, b, [ColumnDef(x, z, None, true)]);
    OneTable(u);
    TwoColumnLine(u);
    NamelessText(p, a, b);
    assert FactOf(u, u.columns[1]) == Fact(x, z, false, false);
    NoName(("|:" + (p + Flags(a, b))) + Sep('|', x + Sep(':', z + Flags(false, false))));
  }

  lemma BarName(r: string) returns (x: string, z: string)
    requires r != "" && r[0] != ':'
    ensures r + Rest() == x + Sep(':', z) && ':' !in x && x != ""
  {
    var text := r + Rest();
    assert text[|r|] == ':' && text[0] == r[0];
    x, z := First(text, ':');
  }

  lemma BarPlainlyNamed(p: string, a: bool, b: bool, x: string, z: string)
    requires ':' !in x && x != ""
    ensures var us := [Bare(p, a, b, [ColumnDef(x, z, None, true)])];
            UniquelyNamed(us) && forall i :: 0 <= i < |us| ==> PlainlyNamed(us[i])
  {
  }

  /** Flags, a bar and the start of a name inside a type can as well start a second column. */
  lemma BarInType(p: string, a: bool, b: bool, r: string) returns (us: seq<TableDef>)
    requires r != "" && r[0] != ':'
    ensures Collides(p + (Flags(a, b) + Sep('|', r)), us)
  {
    var kind := p + (Flags(a, b) + Sep('|', r));
    var x, z := BarName(r);
    us := [Bare(p, a, b, [ColumnDef(x, z, None, true)])];
    HostText(kind);
    BarPartner(p, a, b, x, z);
    BarSplit(p, Flags(a, b), r, Rest(), x, z, Flags(false, false), "\n");
    BarPlainlyNamed(p, a, b, x, z);
    BareMeaning(kind, us, p, a, b, [ColumnDef(x, z, None, true)]);
  }

  /** A different schema with plain names that writes the bytes of the type's table. */
  ghost predicate Collides(kind: string, us: seq<TableDef>) {
    Written([Host(kind)]) == Written(us) && Meaning([Host(kind)]) != Meaning(us)
    && UniquelyNamed(us) && forall i :: 0 <= i < |us| ==> PlainlyNamed(us[i])
  }

  lemma LineSplit(p: string, f: string, r: string, rest: string, n: string, x: string, z: string,
                  g: string, end: string)
    requires r + rest == n + Sep('|', x + Sep(':', z))
    ensures ("|:" + (p + (f + Sep('\n', r)))) + (rest + (g + end))
         == ("|:" + (p + f)) + Sep('\n', (n + Sep('|', x + Sep(':', z + g))) + end)
  {
    var front := "|:" + (p + f);
    assert "|:" + (p + (f + Sep('\n', r))) == front + Sep('\n', r);
    Associative(front, Sep('\n', r), rest + (g + end));
    assert Sep('\n', r) + (rest + (g + end)) == Sep('\n', ((r + rest) + g) + end);
    Glue(n, '|', x + Sep(':', z), g);
    Glue(x, ':', z, g);
  }

  lemma LineNames(r: string) returns (n: string, x: string, z: string)
    requires r == "" || r[0] != '|'
    ensures r + Rest() == n + Sep('|', x + Sep(':', z)) && '|' !in n && n != "" && ':' !in x
  {
    var text := r + Rest();
    var last := |text| - 1;
    assert Rest()[|Rest()| - 1] == ':' && Rest()[|Rest()| - 3] == '|' && Rest()[0] == ':';
    assert text[last] == ':' && text[last - 2] == '|' && text[0] != '|';
    var v;
    n, v := First(text, '|');
    assert v != "" && v[|v| - 1] == text[last];
    x, z := First(v, ':');
  }

  /** The partner of a type with flags and a line end inside. */
  lemma LinePartner(p: string, a: bool, b: bool, n: string, x: string, z: string)
    ensures Written([Bare(p, a, b, []), Keyless(n, [ColumnDef(x, z, None, true)])])
         == ("|:" + (p + Flags(a, b))) + Sep('\n', (n + Sep('|', x + Sep(':', z + Flags(false, false)))) + "\n")
  {
    var u, v := Bare(p, a, b, []), Keyless(n, [ColumnDef(x, z, None, true)]);
    BareFact(p, a, b, []);
    TwoTables(u, v);
    OneColumnLine(u);
    OneColumnLine(v);
    NamelessText(p, a, b);
    NoName("|:" + (p + Flags(a, b)));
    assert FactOf(v, v.columns[0]) == Fact(x, z, false, false);
  }

  lemma LinePlainlyNamed(p: string, a: bool, b: bool, n: string, x: string, z: string)
    requires '|' !in n && n != "" && ':' !in x
    ensures var us := [Bare(p, a, b, []), Keyless(n, [ColumnDef(x, z, None, true)])];
            UniquelyNamed(us) && forall i :: 0 <= i < |us| ==> PlainlyNamed(us[i])
  {
  }

  /** Flags and a line end inside a type can as well start a second table. */
  lemma LineInType(p: string, a: bool, b: bool, r: string) returns (us: seq<TableDef>)
    requires r == "" || r[0] != '|'
    ensures Collides(p + (Flags(a, b) + Sep('\n', r)), us)
  {
    var kind := p + (Flags(a, b) + Sep('\n', r));
    var n, x, z := LineNames(r);
    us := [Bare(p, a, b, []), Keyless(n, [ColumnDef(x, z, None, true)])];
    HostText(kind);
    LinePartner(p, a, b, n, x, z);
    LineSplit(p, Flags(a, b), r, Rest(), n, x, z, Flags(false, false), "\n");
    LinePlainlyNamed(p, a, b, n, x, z);
    BareMeaning(kind, us, p, a, b, []);
  }

  lemma TakenApart(kind: string, j: nat, f: string)
    requires j < |kind| && EndsIn(kind[..j], f)
    ensures kind == kind[..j - |f|] + (f + Sep(kind[j], kind[j + 1..]))
  {
    assert kind[..j] == kind[..j - |f|] + f;
    assert kind == kind[..j] + Sep(kind[j], kind[j + 1..]);
  }

  lemma ApartCollides(kind: string, j: nat, a: bool, b: bool) returns (us: seq<TableDef>)
    requires j < |kind| && EndsIn(kind[..j], Flags(a, b))
    requires (kind[j] == '|' && j + 1 < |kind| && kind[j + 1] != ':')
          || (kind[j] == '\n' && (j + 1 == |kind| || kind[j + 1] != '|'))
    ensures Collides(kind, us)
  {
    TakenApart(kind, j, Flags(a, b));
    var p, r := kind[..j - |Flags(a, b)|], kind[j + 1..];
    if kind[j] == '|' {
      us := BarInType(p, a, b, r);
    } else {
      us := LineInType(p, a, b, r);
    }
  }

  /**
   Every type that is not closed collides: a table with a column of that type, and nothing else
   that could be misread, writes the bytes of a different schema whose names are plain.
   */
  lemma OpenTypeConfuses(kind: string) returns (us: seq<TableDef>)
    requires !Closed(kind)
    ensures Collides(kind, us)
  {
    var j :| 0 <= j < |kind| && Splits(kind, j);
    var a, b :| EndsIn(kind[..j], Flags(a, b));
    us := ApartCollides(kind, j, a, b);
  }

  /** The type is all there is to misread in that table. */
  lemma HostReadable(kind: string)
    ensures Readable([Host(kind)]) <==> Closed(kind)
  {
    var t := Host(kind);
    ClosedWithoutColon("");
    assert TypeText(t.columns[0]) == kind;
    assert Closed(TypeText(t.columns[1]));
    if Readable([t]) {
      assert ReadableTable([t][0]);
    }
  }

  // ---------- the program ----------

  function Selected(realm: seq<TableDef>, wanted: set<string>): (ts: seq<TableDef>)
    ensures forall t :: t in ts <==> t in realm && t.name in wanted
  {
    if |realm| == 0 then []
    else
      var last := |realm| - 1;
      assert realm == realm[..last] + [realm[last]];
      Selected(realm[..last], wanted) + if realm[last].name in wanted then [realm[last]] else []
  }

  method InspectTables(realm: seq<TableDef>, tables: seq<string>) returns (result: seq<TableDef>)
    ensures result == Selected(realm, set t | t in tables)
  {
    var wanted: set<string> := {};
    for i := 0 to |tables|
      invariant wanted == set t | t in tables[..i]
    {
      assert tables[..i + 1] == tables[..i] + [tables[i]];
      wanted := wanted + {tables[i]};
    }
    assert tables[..|tables|] == tables;
    result := [];
    for i := 0 to |realm|
      invariant result == Selected(realm[..i], wanted)
    {
      assert realm[..i + 1][..i] == realm[..i];
      if realm[i].name in wanted {
        result := result + [realm[i]];
      }
    }
    assert realm[..|realm|] == realm;
  }

  lemma SepAssociative(c: char, a: string, b: string)
    ensures Sep(c, a) + b == Sep(c, a + b)
  {
  }

  lemma {:induction false} FactsTextSnoc(fs: seq<Fact>, f: Fact)
    ensures FactsText(fs + [f]) == FactsText(fs) + FactsText([f])
  {
    if |fs| == 0 {
      assert fs + [f] == [f];
    } else {
      assert (fs + [f])[1..] == fs[1..] + [f] && (fs + [f])[0] == fs[0];
      FactsTextSnoc(fs[1..], f);
      var head, rest, last := FactText(fs[0]), FactsText(fs[1..]), FactsText([f]);
      SepAssociative('|', head + rest, last);
      Associative(head, rest, last);
    }
  }

  lemma {:induction false} LinesTextSnoc(cs: seq<Canonical>, c: Canonical)
    ensures LinesText(cs + [c]) == LinesText(cs) + LinesText([c])
  {
    if |cs| == 0 {
      assert cs + [c] == [c];
    } else {
      assert (cs + [c])[1..] == cs[1..] + [c] && (cs + [c])[0] == cs[0];
      LinesTextSnoc(cs[1..], c);
      var head, rest, last := LineText(cs[0]), LinesText(cs[1..]), LinesText([c]);
      SepAssociative('\n', rest, last);
      Associative(head, Sep('\n', rest), last);
    }
  }

  method IsPrimaryKeyColumn(table: TableDef, column: string) returns (isPK: bool)
    ensures isPK == InPrimaryKey(table, column)
  {
    isPK := false;
    if table.primaryKey.Some? {
      var parts := table.primaryKey.value;
      for p := 0 to |parts|
        invariant Some(column) !in parts[..p]
      {
        if parts[p] == Some(column) {
          return true;
        }
      }
      assert parts[..|parts|] == parts;
    }
  }

  lemma LineStep(name: string, t: TableDef, cols: seq<ColumnDef>, i: nat)
    requires i < |cols|
    ensures (name + FactsText(FactsIn(t, cols[..i]))) + FactsText([FactOf(t, cols[i])])
         == name + FactsText(FactsIn(t, cols[..i + 1]))
  {
    var fs, f := FactsIn(t, cols[..i]), FactOf(t, cols[i]);
    assert FactsIn(t, cols[..i + 1]) == fs + [f];
    FactsTextSnoc(fs, f);
    Associative(name, FactsText(fs), FactsText([f]));
  }

  lemma OneFactText(f: Fact)
    ensures FactsText([f]) == Sep('|', FactText(f))
  {
  }

  /** The text of one table, without the line end. */
  method TableText(table: TableDef) returns (line: string)
    ensures line == LineText(CanonicalOf(table))
  {
    var cols := Sort(table.columns, ColumnName);
    line := table.name;
    assert FactsText(FactsIn(table, cols[..0])) == "";
    for i := 0 to |cols|
      invariant line == table.name + FactsText(FactsIn(table, cols[..i]))
    {
      var col := cols[i];
      var isPK := IsPrimaryKeyColumn(table, col.name);
      var typeStr := col.raw;
      if typeStr == "" && col.described.Some? {
        typeStr := col.described.value;
      }
      LineStep(table.name, table, cols, i);
      OneFactText(FactOf(table, col));
      line := line + Sep('|', FactText(Fact(col.name, typeStr, !col.nullable, isPK)));
    }
    assert cols[..|cols|] == cols;
  }

  lemma OneLineText(c: Canonical)
    ensures LinesText([c]) == LineText(c) + "\n"
  {
  }

  lemma LinesStep(ts: seq<TableDef>, i: nat)
    requires i < |ts|
    ensures LinesText(CanonicalsIn(ts[..i])) + (LineText(CanonicalOf(ts[i])) + "\n")
         == LinesText(CanonicalsIn(ts[..i + 1]))
  {
    assert CanonicalsIn(ts[..i + 1]) == CanonicalsIn(ts[..i]) + [CanonicalOf(ts[i])];
    LinesTextSnoc(CanonicalsIn(ts[..i]), CanonicalOf(ts[i]));
    OneLineText(CanonicalOf(ts[i]));
  }

  /** Writes the tables to the hasher one after the other. */
  method WriteTables(ts: seq<TableDef>) returns (h: string)
    ensures h == LinesText(CanonicalsIn(ts))
  {
    h := "";
    for i := 0 to |ts|
      invariant h == LinesText(CanonicalsIn(ts[..i]))
    {
      var line := TableText(ts[i]);
      LinesStep(ts, i);
      h := h + (line + "\n");
    }
    assert ts[..|ts|] == ts;
  }

  /** The digest of the selected tables; `sha` stands for SHA-256 in hexadecimal. */
  method ComputeSchemaHash(realm: seq<TableDef>, tables: seq<string>, sha: string -> string) returns (hash: string)
    ensures hash == sha(Written(Selected(realm, set t | t in tables)))
  {
    var inspected := InspectTables(realm, tables);
    var h := WriteTables(Sort(inspected, TableName));
    hash := sha(h);
  }
}
