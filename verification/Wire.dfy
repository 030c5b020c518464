/**
 What a change event looks like after it has been wrapped, encoded, decoded and unwrapped.

 The codec carries every value unchanged except wrapped times, which it stores with second
 precision.
 */
module Wire {
  import opened Rows

  const NANOS_PER_SECOND := 1_000_000_000

  /** A cell of a wrapped event: times travel in a tagged wrapper. */
  datatype WireValue = Plain(value: Value) | SensitiveTime(nanos: int)

  datatype WireEvent =
    WireEvent(id: int, kind: string, table: string, row: map<string, WireValue>, schemaHash: string)

  predicate HasTime(row: Row) {
    exists column :: column in row && row[column].Time?
  }

  function WrapValue(v: Value): WireValue {
    if v.Time? then SensitiveTime(v.nanos) else Plain(v)
  }

  /** Wrapping builds a new event, without the schema hash, only when some value is a time. */
  function Wrap(e: Event): WireEvent {
    WireEvent(e.id, e.kind, e.table, map column | column in e.row :: WrapValue(e.row[column]),
              if HasTime(e.row) then "" else e.schemaHash)
  }

  function UnwrapValue(v: WireValue): Value {
    match v
    case SensitiveTime(nanos) => Time(nanos)
    case Plain(value) => value
  }

  /** Unwrapping never copies the schema hash. */
  function Unwrap(w: WireEvent): Event {
    Event(w.id, w.kind, w.table, map column | column in w.row :: UnwrapValue(w.row[column]), "")
  }

  /** Encoding keeps whole Unix seconds, and decoding turns them back into an instant. */
  function ThroughCodec(w: WireEvent): WireEvent {
    w.(row := map column | column in w.row ::
         if w.row[column].SensitiveTime?
         then SensitiveTime(w.row[column].nanos / NANOS_PER_SECOND * NANOS_PER_SECOND)
         else w.row[column])
  }

  /** The event a listener sees for a published event. */
  function OverWire(e: Event): Event {
    Unwrap(ThroughCodec(Wrap(e)))
  }

  /** Not a time with a fraction of a second. */
  predicate Whole(v: Value) {
    v.Time? ==> v.nanos % NANOS_PER_SECOND == 0
  }

  predicate WholeSeconds(row: Row) {
    forall column :: column in row ==> Whole(row[column])
  }

  /** Only an event with a time among its values goes out without its schema hash. */
  lemma WrappedHash(e: Event)
    ensures Wrap(e).schemaHash == e.schemaHash <==> e.schemaHash == "" || forall c :: c in e.row ==> !e.row[c].Time?
  {
  }

  /** Unwrapping undoes wrapping except for the schema hash, which always comes back empty. */
  lemma UnwrapWrap(e: Event)
    ensures Unwrap(Wrap(e)) == e.(schemaHash := "")
  {
  }

  /**
   Over the wire an event keeps its identity, its column set, every value that is not a time and
   every time up to its second; the schema hash is always lost.
   */
  lemma WireRoundTrip(e: Event)
    ensures OverWire(e).id == e.id && OverWire(e).kind == e.kind && OverWire(e).table == e.table
    ensures OverWire(e).schemaHash == ""
    ensures OverWire(e).row.Keys == e.row.Keys
    ensures forall column :: column in e.row ==>
              if e.row[column].Time?
              then OverWire(e).row[column].Time?
                && 0 <= e.row[column].nanos - OverWire(e).row[column].nanos < 1_000_000_000
                && OverWire(e).row[column].nanos % 1_000_000_000 == 0
              else OverWire(e).row[column] == e.row[column]
  {
  }

  /** A cell survives unchanged exactly when it holds no fraction of a second. */
  lemma CellLossless(e: Event, column: string)
    requires column in e.row
    ensures OverWire(e).row.Keys == e.row.Keys
    ensures OverWire(e).row[column] == e.row[column] <==> Whole(e.row[column])
  {
  }

  /** The row survives unchanged exactly when it holds no fraction of a second. */
  lemma WireLossless(e: Event)
    ensures OverWire(e) == e.(schemaHash := "") <==> WholeSeconds(e.row)
  {
  }

  /** Sending an event that came over the wire changes nothing more. */
  lemma WireIdempotent(e: Event)
    ensures OverWire(OverWire(e)) == OverWire(e)
  {
  }
}
