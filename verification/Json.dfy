/** Which Python values survive JSON unchanged. */
module Json {
  import opened Sums

  datatype Key = StringKey(text: string) | OtherKey(text: string)

  datatype Entry = Entry(key: Key, value: Value)

  /** `NonFinite` is NaN or an infinity; `Opaque` is anything JSON cannot write (a set, a datetime, an instance). */
  datatype Value =
    | NoneValue
    | Boolean(b: bool)
    | Integer(i: int)
    | Float(x: real)
    | NonFinite
    | Text(s: string)
    | List(items: seq<Value>)
    | Tuple(items: seq<Value>)
    | Dict(entries: seq<Entry>)
    | Opaque

  /** `_assert_json_native`: true when it does not raise. */
  predicate JsonNative(v: Value) {
    match v
    case NonFinite => false
    case List(items) => forall i | 0 <= i < |items| :: JsonNative(items[i])
    case Dict(entries) => forall i | 0 <= i < |entries| :: entries[i].key.StringKey? && JsonNative(entries[i].value)
    case Tuple(_) => false
    case Opaque => false
    case _ => true
  }

  /** What comes back after writing the value as JSON and reading it; None when it cannot be written. */
  function RoundTrip(v: Value): Option<Value>
    decreases v, 1
  {
    match v
    case NonFinite => None
    case Opaque => None
    case List(items) =>
      var r := RoundTripAll(items);
      if r.None? then None else Some(List(r.value))
    case Tuple(items) =>
      var r := RoundTripAll(items);
      if r.None? then None else Some(List(r.value))
    case Dict(entries) =>
      var r := RoundTripEntries(entries);
      if r.None? then None else Some(Dict(r.value))
    case _ => Some(v)
  }

  function RoundTripAll(items: seq<Value>): Option<seq<Value>>
    decreases items, 0
  {
    if items == [] then Some([])
    else
      var head, rest := RoundTrip(items[0]), RoundTripAll(items[1..]);
      if head.None? || rest.None? then None else Some([head.value] + rest.value)
  }

  function RoundTripEntry(e: Entry): Option<Entry>
    decreases e, 1
  {
    var value := RoundTrip(e.value);
    if value.None? then None else Some(Entry(StringKey(e.key.text), value.value))
  }

  function RoundTripEntries(entries: seq<Entry>): Option<seq<Entry>>
    decreases entries, 0
  {
    if entries == [] then Some([])
    else
      var head, rest := RoundTripEntry(entries[0]), RoundTripEntries(entries[1..]);
      if head.None? || rest.None? then None else Some([head.value] + rest.value)
  }

  /** The migration accepts a value exactly when JSON gives it back unchanged. */
  lemma {:induction false} NativeExactlyWhenUnchanged(v: Value)
    ensures JsonNative(v) <==> RoundTrip(v) == Some(v)
    decreases v, 1
  {
    match v
    case List(items) => AllUnchanged(items);
    case Dict(entries) => EntriesUnchanged(entries);
    case _ =>
  }

  lemma {:induction false} AllUnchanged(items: seq<Value>)
    ensures (forall i | 0 <= i < |items| :: JsonNative(items[i])) <==> RoundTripAll(items) == Some(items)
    decreases items, 0
  {
    if items != [] {
      NativeExactlyWhenUnchanged(items[0]);
      AllUnchanged(items[1..]);
      assert items == [items[0]] + items[1..];
      assert forall i | 0 < i < |items| :: items[i] == items[1..][i - 1];
      assert forall i | 0 <= i < |items[1..]| :: items[1..][i] == items[i + 1];
    }
  }

  lemma {:induction false} EntryUnchanged(e: Entry)
    ensures e.key.StringKey? && JsonNative(e.value) <==> RoundTripEntry(e) == Some(e)
    decreases e, 1
  {
    NativeExactlyWhenUnchanged(e.value);
  }

  lemma {:induction false} EntriesUnchanged(entries: seq<Entry>)
    ensures (forall i | 0 <= i < |entries| :: entries[i].key.StringKey? && JsonNative(entries[i].value))
            <==> RoundTripEntries(entries) == Some(entries)
    decreases entries, 0
  {
    if entries != [] {
      EntryUnchanged(entries[0]);
      EntriesUnchanged(entries[1..]);
      assert entries == [entries[0]] + entries[1..];
      assert forall i | 0 < i < |entries| :: entries[i] == entries[1..][i - 1];
      assert forall i | 0 <= i < |entries[1..]| :: entries[1..][i] == entries[i + 1];
    }
  }
}
