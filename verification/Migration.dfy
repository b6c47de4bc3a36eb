/**
 Migration 004: the pickled `data` columns become JSON, by statements that are never
 rolled back together. Any statement may be the last one of a run.
 */
module Migration {
  import opened Sums
  import opened Json

  /** A stored value: NULL, a pickle stream, JSON text, or bytes that are neither. */
  datatype Cell = Null | Pickled(v: Value) | JsonText(v: Value) | Garbage

  datatype Kind = Blob | JsonKind

  /** One cell per row of the table. */
  datatype Column = Column(kind: Kind, nullable: bool, cells: seq<Cell>)

  datatype Table = Table(data: Option<Column>, dataOld: Option<Column>, dataPickle: Option<Column>, rows: nat)

  /** `_unpickle`: pickle first, JSON as a fallback; None is the ValueError. */
  function Unpickle(c: Cell): Option<Value> {
    match c
    case Null => Some(NoneValue)
    case Pickled(v) => Some(v)
    case JsonText(v) => Some(v)
    case Garbage => None
  }

  /** `_decode_json`: a pickle stream is not UTF-8 JSON, so reading it raises. */
  function DecodeJson(c: Cell): Option<Value> {
    match c
    case Null => Some(NoneValue)
    case JsonText(v) => Some(v)
    case Pickled(_) => None
    case Garbage => None
  }

  /** What `_unpickle` makes of a row; a row neither pickle nor JSON has no value. */
  type Reading = Option<Value>

  predicate Accepted(r: Reading) { r.Some? && r.value != NoneValue && JsonNative(r.value) }

  function ValueOf(r: Reading): Value { if r.Some? then r.value else NoneValue }

  // ---- Where the original values are ----

  ghost predicate Holds(c: Column, originals: seq<Reading>) {
    && |c.cells| == |originals|
    && forall k | 0 <= k < |originals| :: Unpickle(c.cells[k]) == originals[k]
  }

  /** During an upgrade: in `data_old` as long as it exists, else in `data`. */
  ghost predicate Recoverable(t: Table, originals: seq<Reading>) {
    && t.rows == |originals| && t.dataPickle.None?
    && if t.dataOld.Some? then Holds(t.dataOld.value, originals)
       else t.data.Some? && Holds(t.data.value, originals)
  }

  function JsonCells(rows: seq<Reading>): seq<Cell> {
    seq(|rows|, k requires 0 <= k < |rows| => JsonText(ValueOf(rows[k])))
  }

  function PickledCells(rows: seq<Reading>): seq<Cell> {
    seq(|rows|, k requires 0 <= k < |rows| => Pickled(ValueOf(rows[k])))
  }

  lemma JsonCellsNext(rows: seq<Reading>, k: nat, v: Value)
    requires k < |rows| && rows[k] == Some(v)
    ensures (JsonCells(rows[..k]) + seq(|rows| - k, _ => Null))[k := JsonText(v)] ==
            JsonCells(rows[..k + 1]) + seq(|rows| - (k + 1), _ => Null)
  {
  }

  lemma PickledCellsNext(rows: seq<Reading>, k: nat, v: Value)
    requires k < |rows| && rows[k] == Some(v)
    ensures (PickledCells(rows[..k]) + seq(|rows| - k, _ => Null))[k := Pickled(v)] ==
            PickledCells(rows[..k + 1]) + seq(|rows| - (k + 1), _ => Null)
  {
  }

  /** Only `data`, JSON, NOT NULL, every original value. */
  ghost predicate Upgraded(t: Table, originals: seq<Reading>) {
    t == Table(Some(Column(JsonKind, false, JsonCells(originals))), None, None, |originals|)
  }

  /** Only `data`, BLOB, NOT NULL, every original value pickled. */
  ghost predicate Downgraded(t: Table, originals: seq<Reading>) {
    t == Table(Some(Column(Blob, false, PickledCells(originals))), None, None, |originals|)
  }

  /** During a downgrade: in `data` as long as it exists, else pickled in `data_pickle`. */
  ghost predicate RecoverableDown(t: Table, originals: seq<Reading>) {
    && t.rows == |originals| && t.dataOld.None?
    && (forall k | 0 <= k < |originals| :: originals[k].Some? && originals[k].value != NoneValue)
    && if t.data.Some? then Holds(t.data.value, originals)
       else t.dataPickle.Some? && t.dataPickle.value.kind == Blob && t.dataPickle.value.cells == PickledCells(originals)
  }

  /** The `data` column, where there is one, still reads as JSON: its table has not had its final rename. */
  ghost predicate NotYetRenamed(t: Table) {
    t.data.Some? ==> forall k | 0 <= k < |t.data.value.cells| :: DecodeJson(t.data.value.cells[k]).Some?
  }

  // ---- Statements ----

  predicate Added(c: Column, rows: nat) { c.nullable && c.cells == seq(rows, _ => Null) }

  ghost predicate CellWritten(c: Column, c': Column) {
    && c'.kind == c.kind && c'.nullable == c.nullable && |c'.cells| == |c.cells|
    && exists k :: 0 <= k < |c.cells| && c'.cells == c.cells[k := c'.cells[k]]
  }

  lemma WritingACell(c: Column, k: nat, v: Cell)
    requires k < |c.cells|
    ensures CellWritten(c, c.(cells := c.cells[k := v]))
  {
    var cells := c.cells[k := v];
    assert cells == c.cells[k := cells[k]];
  }

  /** A column is added without values, dropped, made NOT NULL, or has one cell written. */
  ghost predicate Altered(c: Option<Column>, c': Option<Column>, rows: nat) {
    || (c.None? && c'.Some? && Added(c'.value, rows))
    || (c.Some? && c'.None?)
    || (c.Some? && c' == Some(c.value.(nullable := false)))
    || (c.Some? && c'.Some? && CellWritten(c.value, c'.value))
  }

  predicate Renamed(a: Option<Column>, a': Option<Column>, b: Option<Column>, b': Option<Column>) {
    && a.Some? && b.None? && a'.None?
    && (b' == a || b' == Some(a.value.(nullable := false)))
  }

  /** What one statement can do to a table: nothing happens at once that the source does in two steps. */
  ghost predicate OneStatement(t: Table, t': Table) {
    || (t' == t.(data := t'.data) && Altered(t.data, t'.data, t.rows))
    || (t' == t.(dataOld := t'.dataOld) && Altered(t.dataOld, t'.dataOld, t.rows))
    || (t' == t.(dataPickle := t'.dataPickle) && Altered(t.dataPickle, t'.dataPickle, t.rows))
    || (t' == t.(data := t'.data, dataOld := t'.dataOld)
        && (Renamed(t.data, t'.data, t.dataOld, t'.dataOld) || Renamed(t.dataOld, t'.dataOld, t.data, t'.data)))
    || (t' == t.(data := t'.data, dataPickle := t'.dataPickle)
        && Renamed(t.dataPickle, t'.dataPickle, t.data, t'.data))
  }

  datatype Outcome = Finished | Interrupted | Refused

  class Schema {
    var tables: seq<Table>
    /** How many more statements this run gets; None is an uninterrupted run. */
    var budget: Option<nat>
    ghost var seen: set<seq<Table>>

    constructor (tables: seq<Table>)
      ensures this.tables == tables && budget == None && seen == {tables}
    {
      this.tables := tables;
      this.budget := None;
      this.seen := {tables};
    }

    /** One statement against table `i`, unless the run is interrupted before it. */
    method Statement(i: nat, t: Table) returns (o: Outcome)
      requires i < |tables| && OneStatement(tables[i], t)
      modifies this
      ensures !o.Refused? && (o.Interrupted? <==> old(budget) == Some(0))
      ensures budget == if old(budget).Some? && old(budget).value > 0 then Some(old(budget).value - 1) else old(budget)
      ensures tables == if o.Finished? then old(tables)[i := t] else old(tables)
      ensures seen == old(seen) + {tables}
    {
      if budget == Some(0) { seen := seen + {tables}; return Interrupted; }
      budget := if budget.Some? then Some(budget.value - 1) else None;
      tables := tables[i := t];
      seen := seen + {tables};
      return Finished;
    }
  }

  /** Every state between `old` and now keeps every original in reach. */
  ghost predicate SafeStates(states: set<seq<Table>>, before: set<seq<Table>>, originals: seq<seq<Reading>>) {
    forall s | s in states && s !in before :: Safe(s, originals)
  }

  ghost predicate Safe(tables: seq<Table>, originals: seq<seq<Reading>>) {
    |tables| == |originals| && forall i | 0 <= i < |tables| :: Recoverable(tables[i], originals[i])
  }

  /** Only table `i` differs. */
  ghost predicate OnlyTable(i: nat, tables: seq<Table>, before: seq<Table>) {
    |tables| == |before| && i < |before| && tables == before[i := tables[i]]
  }

  /** A statement that keeps table `i` recoverable keeps the schema safe. */
  method SafeStatement(s: Schema, i: nat, t: Table, ghost originals: seq<seq<Reading>>) returns (o: Outcome)
    requires Safe(s.tables, originals) && i < |s.tables| && Recoverable(t, originals[i])
    requires OneStatement(s.tables[i], t)
    modifies s
    ensures !o.Refused? && (old(s.budget).None? ==> o.Finished? && s.budget.None?)
    ensures Safe(s.tables, originals) && OnlyTable(i, s.tables, old(s.tables))
    ensures old(s.seen) <= s.seen && SafeStates(s.seen, old(s.seen), originals)
    ensures o.Finished? ==> s.tables[i] == t
  {
    o := s.Statement(i, t);
  }

  /** `_rollback_partial_upgrade` */
  method RollbackPartialUpgrade(s: Schema, i: nat, ghost originals: seq<seq<Reading>>) returns (o: Outcome)
    requires Safe(s.tables, originals) && i < |s.tables|
    modifies s
    ensures !o.Refused? && (old(s.budget).None? ==> o.Finished? && s.budget.None?)
    ensures Safe(s.tables, originals) && OnlyTable(i, s.tables, old(s.tables))
    ensures old(s.seen) <= s.seen && SafeStates(s.seen, old(s.seen), originals)
    ensures o.Finished? ==> s.tables[i].dataOld.None?
  {
    o := Finished;
    if s.tables[i].dataOld.None? { return; }
    if s.tables[i].data.Some? {
      o := SafeStatement(s, i, s.tables[i].(data := None), originals);
      if !o.Finished? { return; }
    }
    var saved := s.tables[i].dataOld.value;
    o := SafeStatement(s, i, s.tables[i].(data := Some(saved.(nullable := false)), dataOld := None), originals);
  }

  /** The first `k` rows are converted, the others empty. */
  ghost predicate Converting(t: Table, rows: seq<Reading>, k: nat)
    requires k <= |rows|
  {
    t.data == Some(Column(JsonKind, true, JsonCells(rows[..k]) + seq(|rows| - k, _ => Null)))
  }

  /** One row of the conversion. */
  method ConvertRow(s: Schema, i: nat, k: nat, raw: Cell, ghost originals: seq<seq<Reading>>) returns (o: Outcome)
    requires Safe(s.tables, originals) && i < |s.tables| && k < |originals[i]|
    requires s.tables[i].dataOld.Some? && Unpickle(raw) == originals[i][k] && Converting(s.tables[i], originals[i], k)
    modifies s
    ensures old(s.budget).None? ==> !o.Interrupted? && s.budget.None?
    ensures Safe(s.tables, originals) && OnlyTable(i, s.tables, old(s.tables))
    ensures old(s.seen) <= s.seen && SafeStates(s.seen, old(s.seen), originals)
    ensures o.Finished? ==> s.tables[i] == old(s.tables[i]).(data := s.tables[i].data)
    ensures o.Finished? ==> Accepted(originals[i][k]) && Converting(s.tables[i], originals[i], k + 1)
    ensures o.Refused? ==> !Accepted(originals[i][k])
  {
    var value := Unpickle(raw);
    if value.None? || value.value == NoneValue || !JsonNative(value.value) { return Refused; }
    var t := s.tables[i];
    var cells := t.data.value.cells[k := JsonText(value.value)];
    JsonCellsNext(originals[i], k, value.value);
    WritingACell(t.data.value, k, JsonText(value.value));
    o := SafeStatement(s, i, t.(data := Some(t.data.value.(cells := cells))), originals);
  }

  /** The conversion loop: stops with an error at the first row it cannot accept. */
  method ConvertRows(s: Schema, i: nat, ghost originals: seq<seq<Reading>>) returns (o: Outcome)
    requires Safe(s.tables, originals) && i < |s.tables|
    requires s.tables[i].dataOld.Some?
    requires s.tables[i].data == Some(Column(JsonKind, true, seq(s.tables[i].rows, _ => Null)))
    modifies s
    ensures old(s.budget).None? ==> !o.Interrupted? && s.budget.None?
    ensures Safe(s.tables, originals) && OnlyTable(i, s.tables, old(s.tables))
    ensures old(s.seen) <= s.seen && SafeStates(s.seen, old(s.seen), originals)
    ensures o.Finished? ==>
              s.tables[i] == old(s.tables[i]).(data := Some(Column(JsonKind, true, JsonCells(originals[i]))))
    ensures o.Finished? ==> forall k | 0 <= k < |originals[i]| :: Accepted(originals[i][k])
    ensures o.Refused? ==> exists k | 0 <= k < |originals[i]| :: !Accepted(originals[i][k])
  {
    var raw := s.tables[i].dataOld.value.cells;
    assert JsonCells([]) + seq(|raw|, _ => Null) == seq(|raw|, _ => Null);
    assert originals[i][..0] == [];
    var k := 0;
    while k < |raw|
      invariant 0 <= k <= |raw| == |originals[i]|
      invariant old(s.budget).None? ==> s.budget.None?
      invariant Safe(s.tables, originals) && OnlyTable(i, s.tables, old(s.tables))
      invariant old(s.seen) <= s.seen && SafeStates(s.seen, old(s.seen), originals)
      invariant s.tables[i] == old(s.tables[i]).(data := s.tables[i].data)
      invariant Converting(s.tables[i], originals[i], k)
      invariant forall m | 0 <= m < k :: Accepted(originals[i][m])
    {
      o := ConvertRow(s, i, k, raw[k], originals);
      if !o.Finished? { return; }
      k := k + 1;
    }
    assert originals[i][..k] == originals[i];
    assert JsonCells(originals[i]) + seq(|raw| - k, _ => Null) == JsonCells(originals[i]);
    return Finished;
  }

  /** One table of `upgrade`. */
  method UpgradeTable(s: Schema, i: nat, ghost originals: seq<seq<Reading>>) returns (o: Outcome)
    requires Safe(s.tables, originals) && i < |s.tables|
    modifies s
    ensures old(s.budget).None? ==> !o.Interrupted? && s.budget.None?
    ensures Safe(s.tables, originals) && OnlyTable(i, s.tables, old(s.tables))
    ensures old(s.seen) <= s.seen && SafeStates(s.seen, old(s.seen), originals)
    ensures o.Finished? ==> Upgraded(s.tables[i], originals[i])
    ensures o.Finished? ==> forall k | 0 <= k < |originals[i]| :: Accepted(originals[i][k])
    ensures o.Refused? ==> exists k | 0 <= k < |originals[i]| :: !Accepted(originals[i][k])
  {
    o := RollbackPartialUpgrade(s, i, originals);
    if !o.Finished? { return; }
    var t := s.tables[i];
    o := SafeStatement(s, i, t.(dataOld := t.data, data := None), originals);
    if !o.Finished? { return; }
    t := s.tables[i];
    o := SafeStatement(s, i, t.(data := Some(Column(JsonKind, true, seq(t.rows, _ => Null)))), originals);
    if !o.Finished? { return; }
    o := ConvertRows(s, i, originals);
    if !o.Finished? { return; }
    t := s.tables[i];
    o := SafeStatement(s, i, t.(data := Some(t.data.value.(nullable := false))), originals);
    if !o.Finished? { return; }
    t := s.tables[i];
    o := SafeStatement(s, i, t.(dataOld := None), originals);
  }

  ghost predicate AllAccepted(originals: seq<seq<Reading>>) {
    forall i, k | 0 <= i < |originals| && 0 <= k < |originals[i]| :: Accepted(originals[i][k])
  }

  /** An uninterrupted run finishes exactly when every row is acceptable, and then nothing is left to do. */
  method Upgrade(s: Schema, ghost originals: seq<seq<Reading>>) returns (o: Outcome)
    requires Safe(s.tables, originals)
    modifies s
    ensures Safe(s.tables, originals) && old(s.seen) <= s.seen && SafeStates(s.seen, old(s.seen), originals)
    ensures old(s.budget).None? ==> (o.Finished? <==> AllAccepted(originals)) && !o.Interrupted?
    ensures o.Finished? ==> forall i | 0 <= i < |originals| :: Upgraded(s.tables[i], originals[i])
  {
    var i := 0;
    while i < |s.tables|
      invariant 0 <= i <= |s.tables|
      invariant old(s.budget).None? ==> s.budget.None?
      invariant Safe(s.tables, originals) && old(s.seen) <= s.seen && SafeStates(s.seen, old(s.seen), originals)
      invariant forall j | 0 <= j < i :: Upgraded(s.tables[j], originals[j])
      invariant forall j, k | 0 <= j < i && 0 <= k < |originals[j]| :: Accepted(originals[j][k])
      decreases |originals| - i
    {
      o := UpgradeTable(s, i, originals);
      if !o.Finished? { return; }
      i := i + 1;
    }
    return Finished;
  }

  /** Any number of interrupted runs, then one that is left alone. */
  method UpgradeWithInterruptions(s: Schema, budgets: seq<nat>, ghost originals: seq<seq<Reading>>) returns (o: Outcome)
    requires Safe(s.tables, originals)
    modifies s
    ensures Safe(s.tables, originals) && old(s.seen) <= s.seen && SafeStates(s.seen, old(s.seen), originals)
    ensures o.Finished? <==> AllAccepted(originals)
    ensures o.Finished? ==> forall i | 0 <= i < |originals| :: Upgraded(s.tables[i], originals[i])
  {
    var k := 0;
    while k < |budgets|
      invariant Safe(s.tables, originals) && old(s.seen) <= s.seen && SafeStates(s.seen, old(s.seen), originals)
    {
      s.budget := Some(budgets[k]);
      o := Upgrade(s, originals);
      k := k + 1;
    }
    s.budget := None;
    o := Upgrade(s, originals);
  }

  // ---- Downgrade ----

  ghost predicate SafeDown(tables: seq<Table>, originals: seq<seq<Reading>>) {
    |tables| == |originals| && forall i | 0 <= i < |tables| :: RecoverableDown(tables[i], originals[i])
  }

  ghost predicate SafeStatesDown(states: set<seq<Table>>, before: set<seq<Table>>, originals: seq<seq<Reading>>) {
    forall s | s in states && s !in before :: SafeDown(s, originals)
  }

  method SafeStatementDown(s: Schema, i: nat, t: Table, ghost originals: seq<seq<Reading>>) returns (o: Outcome)
    requires SafeDown(s.tables, originals) && i < |s.tables| && RecoverableDown(t, originals[i])
    requires OneStatement(s.tables[i], t)
    modifies s
    ensures !o.Refused? && (old(s.budget).None? ==> o.Finished? && s.budget.None?)
    ensures SafeDown(s.tables, originals) && OnlyTable(i, s.tables, old(s.tables))
    ensures old(s.seen) <= s.seen && SafeStatesDown(s.seen, old(s.seen), originals)
    ensures o.Finished? ==> s.tables[i] == t
  {
    o := s.Statement(i, t);
  }

  /** `_finish_partial_downgrade`: `more` when the table still has to be converted. */
  method FinishPartialDowngrade(s: Schema, i: nat, ghost originals: seq<seq<Reading>>) returns (o: Outcome, more: bool)
    requires SafeDown(s.tables, originals) && i < |s.tables|
    modifies s
    ensures !o.Refused? && (old(s.budget).None? ==> o.Finished? && s.budget.None?)
    ensures SafeDown(s.tables, originals) && OnlyTable(i, s.tables, old(s.tables))
    ensures old(s.seen) <= s.seen && SafeStatesDown(s.seen, old(s.seen), originals)
    ensures o.Finished? ==> (more <==> old(s.tables[i]).data.Some?)
    ensures o.Finished? && more ==> s.tables[i] == old(s.tables[i]).(dataPickle := None)
    ensures o.Finished? && !more ==> Downgraded(s.tables[i], originals[i])
  {
    var t := s.tables[i];
    if t.dataPickle.None? { return Finished, t.data.Some?; }
    if t.data.None? {
      var renamed := t.dataPickle.value.(nullable := false);
      o := SafeStatementDown(s, i, t.(data := Some(renamed), dataPickle := None), originals);
      return o, false;
    }
    o := SafeStatementDown(s, i, t.(dataPickle := None), originals);
    return o, true;
  }

  ghost predicate Pickling(t: Table, rows: seq<Reading>, k: nat)
    requires k <= |rows|
  {
    t.dataPickle == Some(Column(Blob, true, PickledCells(rows[..k]) + seq(|rows| - k, _ => Null)))
  }

  /** One row of the conversion back. */
  method PickleRow(s: Schema, i: nat, k: nat, raw: Cell, ghost originals: seq<seq<Reading>>) returns (o: Outcome)
    requires SafeDown(s.tables, originals) && i < |s.tables| && k < |originals[i]|
    requires s.tables[i].data.Some? && raw == s.tables[i].data.value.cells[k] && Pickling(s.tables[i], originals[i], k)
    modifies s
    ensures old(s.budget).None? ==> !o.Interrupted? && s.budget.None?
    ensures SafeDown(s.tables, originals) && OnlyTable(i, s.tables, old(s.tables))
    ensures old(s.seen) <= s.seen && SafeStatesDown(s.seen, old(s.seen), originals)
    ensures o.Finished? ==> s.tables[i] == old(s.tables[i]).(dataPickle := s.tables[i].dataPickle)
    ensures o.Finished? ==> DecodeJson(raw).Some? && Pickling(s.tables[i], originals[i], k + 1)
    ensures o.Refused? ==> DecodeJson(raw).None?
  {
    var value := DecodeJson(raw);
    if value.None? || value.value == NoneValue { return Refused; }
    var t := s.tables[i];
    var cells := t.dataPickle.value.cells[k := Pickled(value.value)];
    PickledCellsNext(originals[i], k, value.value);
    WritingACell(t.dataPickle.value, k, Pickled(value.value));
    o := SafeStatementDown(s, i, t.(dataPickle := Some(t.dataPickle.value.(cells := cells))), originals);
  }

  /** The conversion back; a cell that does not read as JSON raises. */
  method PickleRows(s: Schema, i: nat, ghost originals: seq<seq<Reading>>) returns (o: Outcome)
    requires SafeDown(s.tables, originals) && i < |s.tables|
    requires s.tables[i].data.Some?
    requires s.tables[i].dataPickle == Some(Column(Blob, true, seq(s.tables[i].rows, _ => Null)))
    modifies s
    ensures old(s.budget).None? ==> !o.Interrupted? && s.budget.None?
    ensures SafeDown(s.tables, originals) && OnlyTable(i, s.tables, old(s.tables))
    ensures old(s.seen) <= s.seen && SafeStatesDown(s.seen, old(s.seen), originals)
    ensures o.Finished? ==>
              s.tables[i] == old(s.tables[i]).(dataPickle := Some(Column(Blob, true, PickledCells(originals[i]))))
    ensures o.Finished? ==> NotYetRenamed(old(s.tables[i]))
    ensures o.Refused? ==> !NotYetRenamed(old(s.tables[i]))
  {
    var raw := s.tables[i].data.value.cells;
    assert PickledCells([]) + seq(|raw|, _ => Null) == seq(|raw|, _ => Null);
    assert originals[i][..0] == [];
    var k := 0;
    while k < |raw|
      invariant 0 <= k <= |raw| == |originals[i]|
      invariant old(s.budget).None? ==> s.budget.None?
      invariant SafeDown(s.tables, originals) && OnlyTable(i, s.tables, old(s.tables))
      invariant old(s.seen) <= s.seen && SafeStatesDown(s.seen, old(s.seen), originals)
      invariant s.tables[i] == old(s.tables[i]).(dataPickle := s.tables[i].dataPickle)
      invariant Pickling(s.tables[i], originals[i], k)
      invariant forall m | 0 <= m < k :: DecodeJson(raw[m]).Some?
    {
      o := PickleRow(s, i, k, raw[k], originals);
      if !o.Finished? { return; }
      k := k + 1;
    }
    assert originals[i][..k] == originals[i];
    assert PickledCells(originals[i]) + seq(|raw| - k, _ => Null) == PickledCells(originals[i]);
    return Finished;
  }

  /** One table of `downgrade`. */
  method DowngradeTable(s: Schema, i: nat, ghost originals: seq<seq<Reading>>) returns (o: Outcome)
    requires SafeDown(s.tables, originals) && i < |s.tables|
    modifies s
    ensures old(s.budget).None? ==> !o.Interrupted? && s.budget.None?
    ensures SafeDown(s.tables, originals) && OnlyTable(i, s.tables, old(s.tables))
    ensures old(s.seen) <= s.seen && SafeStatesDown(s.seen, old(s.seen), originals)
    ensures o.Finished? ==> Downgraded(s.tables[i], originals[i]) && NotYetRenamed(old(s.tables[i]))
    ensures o.Refused? ==> !NotYetRenamed(old(s.tables[i]))
  {
    var more;
    o, more := FinishPartialDowngrade(s, i, originals);
    if !o.Finished? || !more { return; }
    var t := s.tables[i];
    o := SafeStatementDown(s, i, t.(dataPickle := Some(Column(Blob, true, seq(t.rows, _ => Null)))), originals);
    if !o.Finished? { return; }
    o := PickleRows(s, i, originals);
    if !o.Finished? { return; }
    t := s.tables[i];
    o := SafeStatementDown(s, i, t.(data := None), originals);
    if !o.Finished? { return; }
    t := s.tables[i];
    var renamed := Some(t.dataPickle.value.(nullable := false));
    o := SafeStatementDown(s, i, t.(data := renamed, dataPickle := None), originals);
  }

  /** An uninterrupted run finishes exactly when no table has had its final rename; no value is ever lost. */
  method Downgrade(s: Schema, ghost originals: seq<seq<Reading>>) returns (o: Outcome)
    requires SafeDown(s.tables, originals)
    modifies s
    ensures SafeDown(s.tables, originals) && old(s.seen) <= s.seen && SafeStatesDown(s.seen, old(s.seen), originals)
    ensures old(s.budget).None? ==>
              !o.Interrupted? && (o.Finished? <==> forall i | 0 <= i < |originals| :: NotYetRenamed(old(s.tables)[i]))
    ensures o.Finished? ==> forall i | 0 <= i < |originals| :: Downgraded(s.tables[i], originals[i])
  {
    var i := 0;
    while i < |s.tables|
      invariant 0 <= i <= |s.tables|
      invariant old(s.budget).None? ==> s.budget.None?
      invariant SafeDown(s.tables, originals) && old(s.seen) <= s.seen && SafeStatesDown(s.seen, old(s.seen), originals)
      invariant forall j | 0 <= j < i :: Downgraded(s.tables[j], originals[j]) && NotYetRenamed(old(s.tables)[j])
      invariant forall j | i <= j < |s.tables| :: s.tables[j] == old(s.tables)[j]
      decreases |originals| - i
    {
      o := DowngradeTable(s, i, originals);
      if !o.Finished? { return; }
      i := i + 1;
    }
    return Finished;
  }

  /** A finished upgrade is a possible start of a downgrade, so the two together give back every pickled original. */
  lemma UpgradedCanBeDowngraded(tables: seq<Table>, originals: seq<seq<Reading>>)
    requires |tables| == |originals| && AllAccepted(originals)
    requires forall i | 0 <= i < |tables| :: Upgraded(tables[i], originals[i])
    ensures SafeDown(tables, originals) && forall i | 0 <= i < |tables| :: NotYetRenamed(tables[i])
  {
    forall i | 0 <= i < |tables| ensures RecoverableDown(tables[i], originals[i]) {
      forall k | 0 <= k < |originals[i]| ensures Accepted(originals[i][k]) {
      }
    }
  }

  /** A table with rows that has been renamed makes every later downgrade raise. */
  lemma RenamedTableBlocksDowngrade(t: Table, originals: seq<Reading>)
    requires Downgraded(t, originals)
    ensures NotYetRenamed(t) <==> originals == []
  {
    if originals != [] {
      assert DecodeJson(t.data.value.cells[0]).None?;
    }
  }
}
