/** Reversible operations (operations.go) and the in-memory store that applies and
    reverts them (memory.go). Arithmetic is exact: float64 values are reals. */
module Store {
  import opened Wrappers

  /** A decoded field: how it prints and how it counts (fmt.Sprint, toFloat64). */
  datatype Val = Val(text: string, number: real)

  type Data = map<string, Val>

  datatype Kind = Insert | Update | Delete

  datatype Operation = Operation(kind: Kind, table: string, data: Data, prev: Data, block: nat, log: nat) {
    function Inverse(): Operation {
      match kind
      case Insert => this.(kind := Delete, prev := map[])
      case Update => this.(data := prev, prev := data)
      case Delete => this.(kind := Insert, data := prev, prev := map[])
    }
  }

  /** InverseOp undoes itself on updates only, up to operations that carry no data. */
  lemma InverseTwiceIff(op: Operation)
    ensures op.Inverse().Inverse() == op <==> op.kind.Update? || (op.data == map[] && op.prev == map[])
  {
  }

  datatype TableKind = Log | Unique | Aggregation

  datatype AggKind = Sum | Count | Avg

  datatype Spec = Spec(kind: AggKind, field: string, column: string)

  datatype Schema = Schema(kind: TableKind, shared: bool, uniqueKey: string, aggregates: seq<Spec>)

  type Schemas = map<string, Schema>

  /** "block:log", prefixed with the emitter in shared tables. */
  datatype RowKey = RowKey(table: string, emitter: Option<string>, block: nat, log: nat)

  datatype EntryKey = EntryKey(table: string, emitter: Option<string>, unique: string)

  datatype Row = Row(block: nat, log: nat, data: Data)

  /** An aggregate's column and the two internal ones behind an average. */
  datatype Column = Plain(name: string) | SumOf(name: string) | CountOf(name: string)

  type Aggregates = map<(string, Column), real>

  datatype Value = Value(rows: map<RowKey, Row>, entries: map<EntryKey, Row>, aggregates: Aggregates)

  const EMPTY: Value := Value(map[], map[], map[])

  const ADDRESS: string := "contract_address"

  function KeyOf(schemas: Schemas, op: Operation): RowKey {
    var emitter := if op.table in schemas && schemas[op.table].shared && ADDRESS in op.data
        then Some(op.data[ADDRESS].text) else None;
    RowKey(op.table, emitter, op.block, op.log)
  }

  function RowOf(op: Operation): Row {
    Row(op.block, op.log, op.data)
  }

  function EntryOf(schemas: Schemas, op: Operation): Option<EntryKey> {
    if op.table in schemas && schemas[op.table].kind.Unique?
       && schemas[op.table].uniqueKey != "" && schemas[op.table].uniqueKey in op.data
    then
      var schema := schemas[op.table];
      var emitter := if !schema.shared then None
                     else Some(if ADDRESS in op.data then op.data[ADDRESS].text else "<nil>");
      Some(EntryKey(op.table, emitter, op.data[schema.uniqueKey].text))
    else None
  }

  function SpecsOf(schemas: Schemas, table: string): seq<Spec> {
    if table in schemas && schemas[table].kind.Aggregation? then schemas[table].aggregates else []
  }

  // ---- Aggregates ------------------------------------------------------------------

  function At(aggregates: Aggregates, table: string, column: Column): real {
    if (table, column) in aggregates then aggregates[(table, column)] else 0.0
  }

  function Number(data: Data, field: string): real {
    if field in data then data[field].number else 0.0
  }

  function Signed(x: real, subtract: bool): real {
    if subtract then -x else x
  }

  function AggStep(aggs: Aggregates, table: string, spec: Spec, data: Data, subtract: bool): Aggregates {
    var c := spec.column;
    match spec.kind
    case Sum => aggs[(table, Plain(c)) := At(aggs, table, Plain(c)) + Signed(Number(data, spec.field), subtract)]
    case Count => aggs[(table, Plain(c)) := At(aggs, table, Plain(c)) + Signed(1.0, subtract)]
    case Avg =>
      var sum := At(aggs, table, SumOf(c)) + Signed(Number(data, spec.field), subtract);
      var count := At(aggs, table, CountOf(c)) + Signed(1.0, subtract);
      aggs[(table, SumOf(c)) := sum][(table, CountOf(c)) := count][(table, Plain(c)) := if count > 0.0 then sum / count
                                                                   else 0.0]
  }

  function AggDelta(aggs: Aggregates, table: string, specs: seq<Spec>, data: Data, subtract: bool): Aggregates {
    if specs == [] then aggs else
    var n := |specs| - 1;
    AggStep(AggDelta(aggs, table, specs[..n], data, subtract), table, specs[n], data, subtract)
  }

  /** What one aggregate must show for `count` rows with total `total`. */
  ghost predicate Shows(aggs: Aggregates, table: string, spec: Spec, total: real, count: int) {
    match spec.kind
    case Sum => At(aggs, table, Plain(spec.column)) == total
    case Count => At(aggs, table, Plain(spec.column)) == count as real
    case Avg =>
      && At(aggs, table, SumOf(spec.column)) == total
      && At(aggs, table, CountOf(spec.column)) == count as real
      && At(aggs, table, Plain(spec.column)) == if count > 0 then total / (count as real) else 0.0
  }

  ghost predicate DistinctColumns(specs: seq<Spec>) {
    forall i, j | 0 <= i < j < |specs| :: specs[i].column != specs[j].column
  }

  lemma {:induction false} OtherColumnsStay(aggs: Aggregates, table: string, specs: seq<Spec>, data: Data,
                                            subtract: bool,
                                            t: string, c: Column)
    requires t == table ==> forall i | 0 <= i < |specs| :: specs[i].column != c.name
    ensures At(AggDelta(aggs, table, specs, data, subtract), t, c) == At(aggs, t, c)
  {
    if specs != [] {
      OtherColumnsStay(aggs, table, specs[..|specs| - 1], data, subtract, t, c);
    }
  }

  lemma StepShows(aggs: Aggregates, table: string, spec: Spec, data: Data, subtract: bool, total: real, count: int)
    requires Shows(aggs, table, spec, total, count)
    ensures Shows(AggStep(aggs, table, spec, data, subtract), table, spec,
                  total + Signed(Number(data, spec.field), subtract), if subtract then count - 1 else count + 1)
  {
  }

  lemma OtherSpecShows(aggs: Aggregates, later: Aggregates, table: string, spec: Spec, total: real, count: int)
    requires Shows(aggs, table, spec, total, count)
    requires forall c: Column | c.name == spec.column :: At(later, table, c) == At(aggs, table, c)
    ensures Shows(later, table, spec, total, count)
  {
  }

  lemma LastStepOthers(aggs: Aggregates, table: string, specs: seq<Spec>, data: Data, subtract: bool, i: nat, c: Column)
    requires DistinctColumns(specs) && i < |specs| - 1 && c.name == specs[i].column
    ensures At(AggDelta(aggs, table, specs, data, subtract), table, c) ==
            At(AggDelta(aggs, table, specs[..|specs| - 1], data, subtract), table, c)
  {
    assert specs[|specs| - 1].column != c.name;
  }

  /** applyAggDelta moves every aggregate of the table by one row, exactly. */
  lemma {:induction false} DeltaShows(aggs: Aggregates, table: string, specs: seq<Spec>, data: Data, subtract: bool,
                                      i: nat, total: real, count: int)
    requires DistinctColumns(specs) && i < |specs| && Shows(aggs, table, specs[i], total, count)
    ensures Shows(AggDelta(aggs, table, specs, data, subtract), table, specs[i],
                  total + Signed(Number(data, specs[i].field), subtract), if subtract then count - 1 else count + 1)
  {
    var n := |specs| - 1;
    var spec := specs[i];
    var before := AggDelta(aggs, table, specs[..n], data, subtract);
    if i == n {
      forall c: Column | c.name == spec.column ensures At(before, table, c) == At(aggs, table, c) {
        OtherColumnsStay(aggs, table, specs[..n], data, subtract, table, c);
      }
      OtherSpecShows(aggs, before, table, spec, total, count);
      StepShows(before, table, spec, data, subtract, total, count);
    } else {
      DeltaShows(aggs, table, specs[..n], data, subtract, i, total, count);
      forall c: Column | c.name == spec.column
        ensures At(AggDelta(aggs, table, specs, data, subtract), table, c) == At(before, table, c)
      {
        LastStepOthers(aggs, table, specs, data, subtract, i, c);
      }
      OtherSpecShows(before, AggDelta(aggs, table, specs, data, subtract), table, spec,
                     total + Signed(Number(data, spec.field), subtract), if subtract then count - 1 else count + 1);
    }
  }

  // ---- Applying --------------------------------------------------------------------

  function Apply(schemas: Schemas, v: Value, op: Operation): Value {
    var key, entry, specs := KeyOf(schemas, op), EntryOf(schemas, op), SpecsOf(schemas, op.table);
    match op.kind
    case Insert =>
      Value(v.rows[key := RowOf(op)],
            if entry.Some? then v.entries[entry.value := RowOf(op)] else v.entries,
            AggDelta(v.aggregates, op.table, specs, op.data, false))
    case Update =>
      Value(v.rows[key := RowOf(op)],
            if entry.Some? then v.entries[entry.value := RowOf(op)] else v.entries,
            v.aggregates)
    case Delete =>
      Value(v.rows - {key},
            if entry.Some? then v.entries - {entry.value} else v.entries,
            AggDelta(v.aggregates, op.table, specs, op.data, true))
  }

  function ApplyAll(schemas: Schemas, v: Value, ops: seq<Operation>): Value
    decreases |ops|
  {
    if ops == [] then v else ApplyAll(schemas, Apply(schemas, v, ops[0]), ops[1..])
  }

  /** RevertOperations applies the inverses, last first. */
  function Reverted(ops: seq<Operation>): seq<Operation> {
    if ops == [] then [] else
    var n := |ops| - 1;
    [ops[n].Inverse()] + Reverted(ops[..n])
  }

  class MemoryStore {
    const schemas: Schemas
    var rows: map<RowKey, Row>
    var entries: map<EntryKey, Row>
    var aggregates: Aggregates
    var cursors: map<string, nat>

    constructor (schemas: Schemas)
      ensures this.schemas == schemas && Contents() == EMPTY && cursors == map[]
    {
      this.schemas := schemas;
      rows, entries, aggregates, cursors := map[], map[], map[], map[];
    }

    function Contents(): Value
      reads this`rows, this`entries, this`aggregates
    {
      Value(rows, entries, aggregates)
    }

    method ApplyAggDelta(table: string, specs: seq<Spec>, data: Data, subtract: bool)
      modifies this`aggregates
      ensures aggregates == AggDelta(old(aggregates), table, specs, data, subtract)
    {
      for i := 0 to |specs|
        invariant aggregates == AggDelta(old(aggregates), table, specs[..i], data, subtract)
      {
        ApplyAggSpec(table, specs[i], data, subtract);
        assert specs[..i + 1][..i] == specs[..i];
      }
      assert specs[..|specs|] == specs;
    }

    method ApplyAggSpec(table: string, spec: Spec, data: Data, subtract: bool)
      modifies this`aggregates
      ensures aggregates == AggStep(old(aggregates), table, spec, data, subtract)
    {
      var plain, sum, count := Plain(spec.column), SumOf(spec.column), CountOf(spec.column);
      match spec.kind {
        case Sum =>
          aggregates := aggregates[(table, plain) := At(aggregates, table, plain) +
                                   Signed(Number(data, spec.field), subtract)];
        case Count =>
          aggregates := aggregates[(table, plain) := At(aggregates, table, plain) + Signed(1.0, subtract)];
        case Avg =>
          aggregates := aggregates[(table, sum) := At(aggregates, table, sum) +
                                   Signed(Number(data, spec.field), subtract)];
          aggregates := aggregates[(table, count) := At(aggregates, table, count) + Signed(1.0, subtract)];
          if aggregates[(table, count)] > 0.0 {
            aggregates := aggregates[(table, plain) := aggregates[(table, sum)] / aggregates[(table, count)]];
          } else {
            aggregates := aggregates[(table, plain) := 0.0];
          }
      }
    }

    method ApplyOp(op: Operation)
      modifies this`rows, this`entries, this`aggregates
      ensures Contents() == Apply(schemas, old(Contents()), op)
    {
      var key, entry := KeyOf(schemas, op), EntryOf(schemas, op);
      match op.kind {
        case Insert =>
          rows := rows[key := RowOf(op)];
          if entry.Some? {
            entries := entries[entry.value := RowOf(op)];
          }
          ApplyAggDelta(op.table, SpecsOf(schemas, op.table), op.data, false);
        case Update =>
          rows := rows[key := RowOf(op)];
          if entry.Some? {
            entries := entries[entry.value := RowOf(op)];
          }
        case Delete =>
          rows := rows - {key};
          if entry.Some? {
            entries := entries - {entry.value};
          }
          ApplyAggDelta(op.table, SpecsOf(schemas, op.table), op.data, true);
      }
    }

    method ApplyOperations(ops: seq<Operation>)
      modifies this`rows, this`entries, this`aggregates
      ensures Contents() == ApplyAll(schemas, old(Contents()), ops)
    {
      for i := 0 to |ops|
        invariant ApplyAll(schemas, Contents(), ops[i..]) == ApplyAll(schemas, old(Contents()), ops)
      {
        assert ops[i..][1..] == ops[i + 1..];
        ApplyOp(ops[i]);
      }
    }

    method RevertOperations(ops: seq<Operation>)
      modifies this`rows, this`entries, this`aggregates
      ensures Contents() == ApplyAll(schemas, old(Contents()), Reverted(ops))
    {
      var reversed: seq<Operation> := [];
      for i := 0 to |ops|
        invariant reversed == Reverted(ops[..i])
      {
        reversed := [ops[i].Inverse()] + reversed;
        assert ops[..i + 1][..i] == ops[..i];
      }
      assert ops[..|ops|] == ops;
      ApplyOperations(reversed);
    }

    function GetCursor(contract: string): nat
      reads this`cursors
    {
      if contract in cursors then cursors[contract] else 0
    }

    method SetCursor(contract: string, block: nat)
      modifies this`cursors
      ensures cursors == old(cursors)[contract := block]
    {
      cursors := cursors[contract := block];
    }
  }

  // ---- What a store shows for a sequence of inserted rows ---------------------------

  function RowsOf(schemas: Schemas, ops: seq<Operation>): map<RowKey, Row> {
    if ops == [] then map[] else
    var n := |ops| - 1;
    RowsOf(schemas, ops[..n])[KeyOf(schemas, ops[n]) := RowOf(ops[n])]
  }

  /** The row of the last operation with unique key `k`. */
  function Latest(schemas: Schemas, ops: seq<Operation>, k: EntryKey): Option<Row> {
    if ops == [] then None else
    var n := |ops| - 1;
    if EntryOf(schemas, ops[n]) == Some(k) then Some(RowOf(ops[n])) else Latest(schemas, ops[..n], k)
  }

  function Total(ops: seq<Operation>, table: string, field: string): real {
    if ops == [] then 0.0 else
    var n := |ops| - 1;
    Total(ops[..n], table, field) + if ops[n].table == table then Number(ops[n].data, field) else 0.0
  }

  function CountIn(ops: seq<Operation>, table: string): nat {
    if ops == [] then 0 else
    var n := |ops| - 1;
    CountIn(ops[..n], table) + if ops[n].table == table then 1 else 0
  }

  ghost predicate AggregatesShow(schemas: Schemas, aggs: Aggregates, ops: seq<Operation>) {
    forall t, i | t in schemas && 0 <= i < |SpecsOf(schemas, t)| ::
      Shows(aggs, t, SpecsOf(schemas, t)[i], Total(ops, t, SpecsOf(schemas, t)[i].field), CountIn(ops, t))
  }

  ghost predicate EntriesShow(schemas: Schemas, entries: map<EntryKey, Row>, ops: seq<Operation>) {
    forall k | k in entries :: Latest(schemas, ops, k) == Some(entries[k])
  }

  /** Exactly the rows of `ops`, aggregates over them, and unique entries that are each
      the latest row of their key. */
  ghost predicate Matches(schemas: Schemas, v: Value, ops: seq<Operation>) {
    && v.rows == RowsOf(schemas, ops)
    && EntriesShow(schemas, v.entries, ops)
    && AggregatesShow(schemas, v.aggregates, ops)
  }

  ghost predicate GoodSchemas(schemas: Schemas) {
    forall t | t in schemas :: DistinctColumns(schemas[t].aggregates)
  }

  ghost predicate Inserts(ops: seq<Operation>) {
    forall i | 0 <= i < |ops| :: ops[i].kind.Insert? && ops[i].prev == map[]
  }

  /** No two operations share a block and a log index. */
  ghost predicate DistinctPlaces(ops: seq<Operation>) {
    forall i, j | 0 <= i < j < |ops| :: ops[i].block != ops[j].block || ops[i].log != ops[j].log
  }

  function Without(ops: seq<Operation>, i: nat): seq<Operation>
    requires i < |ops|
  {
    ops[..i] + ops[i + 1..]
  }

  lemma NothingMatches(schemas: Schemas)
    ensures Matches(schemas, EMPTY, [])
  {
  }

  lemma InsertMatches(schemas: Schemas, v: Value, ops: seq<Operation>, op: Operation)
    requires GoodSchemas(schemas) && Matches(schemas, v, ops) && op.kind.Insert?
    ensures Matches(schemas, Apply(schemas, v, op), ops + [op])
  {
    var all := ops + [op];
    assert all[..|ops|] == ops;
    AggregatesMove(schemas, v.aggregates, ops, all, op, false);
  }

  /** Adding or taking back one row moves all aggregates with it. */
  lemma AggregatesMove(schemas: Schemas, aggs: Aggregates, ops: seq<Operation>, after: seq<Operation>, op: Operation,
                       subtract: bool)
    requires GoodSchemas(schemas) && AggregatesShow(schemas, aggs, ops)
    requires forall t, f :: Total(after, t, f) == Total(ops, t, f) + if t == op.table
             then Signed(Number(op.data, f), subtract) else 0.0
    requires forall t :: CountIn(after, t) == CountIn(ops, t) + if t != op.table then 0 else if subtract then -1 else 1
    ensures AggregatesShow(schemas, AggDelta(aggs, op.table, SpecsOf(schemas, op.table), op.data, subtract), after)
  {
    var specs := SpecsOf(schemas, op.table);
    var aggs' := AggDelta(aggs, op.table, specs, op.data, subtract);
    forall t, i | t in schemas && 0 <= i < |SpecsOf(schemas, t)|
      ensures Shows(aggs', t, SpecsOf(schemas, t)[i], Total(after, t, SpecsOf(schemas, t)[i].field), CountIn(after, t))
    {
      var spec := SpecsOf(schemas, t)[i];
      if t == op.table {
        DeltaShows(aggs, t, specs, op.data, subtract, i, Total(ops, t, spec.field), CountIn(ops, t));
      } else {
        OtherColumnsStay(aggs, op.table, specs, op.data, subtract, t, Plain(spec.column));
        OtherColumnsStay(aggs, op.table, specs, op.data, subtract, t, SumOf(spec.column));
        OtherColumnsStay(aggs, op.table, specs, op.data, subtract, t, CountOf(spec.column));
      }
    }
  }

  lemma WithoutLast(ops: seq<Operation>, i: nat)
    requires i < |ops|
    ensures var n := |ops| - 1;
            if i == n then Without(ops, i) == ops[..n]
            else
              && Without(ops, i) != []
              && Without(ops, i)[..n - 1] == Without(ops[..n], i) && Without(ops, i)[n - 1] == ops[n]
  {
  }

  lemma {:induction false} TotalWithout(ops: seq<Operation>, i: nat, table: string, field: string)
    requires i < |ops|
    ensures Total(Without(ops, i), table, field) ==
            Total(ops, table, field) + if table == ops[i].table then Signed(Number(ops[i].data, field), true) else 0.0
  {
    WithoutLast(ops, i);
    if i < |ops| - 1 {
      TotalWithout(ops[..|ops| - 1], i, table, field);
    }
  }

  lemma {:induction false} CountWithout(ops: seq<Operation>, i: nat, table: string)
    requires i < |ops|
    ensures CountIn(Without(ops, i), table) == CountIn(ops, table) + if table != ops[i].table then 0 else -1
  {
    WithoutLast(ops, i);
    if i < |ops| - 1 {
      CountWithout(ops[..|ops| - 1], i, table);
    }
  }

  lemma {:induction false} RowsWithout(schemas: Schemas, ops: seq<Operation>, i: nat)
    requires i < |ops| && DistinctPlaces(ops)
    ensures RowsOf(schemas, Without(ops, i)) == RowsOf(schemas, ops) - {KeyOf(schemas, ops[i])}
  {
    var n := |ops| - 1;
    if i == n {
      WithoutLast(ops, i);
      FreshKey(schemas, ops);
    } else {
      RowsWithout(schemas, ops[..n], i);
      OneMoreRow(schemas, ops, i);
    }
  }

  lemma OneMoreRow(schemas: Schemas, ops: seq<Operation>, i: nat)
    requires i < |ops| - 1 && KeyOf(schemas, ops[i]) != KeyOf(schemas, ops[|ops| - 1])
    requires RowsOf(schemas, Without(ops[..|ops| - 1], i)) ==
             RowsOf(schemas, ops[..|ops| - 1]) - {KeyOf(schemas, ops[i])}
    ensures RowsOf(schemas, Without(ops, i)) == RowsOf(schemas, ops) - {KeyOf(schemas, ops[i])}
  {
    var last := ops[|ops| - 1];
    WithoutLast(ops, i);
    TakeOut(RowsOf(schemas, ops[..|ops| - 1]), KeyOf(schemas, ops[i]), KeyOf(schemas, last), RowOf(last));
  }

  lemma TakeOut(rows: map<RowKey, Row>, k: RowKey, last: RowKey, row: Row)
    requires k != last
    ensures (rows - {k})[last := row] == rows[last := row] - {k}
  {
  }

  /** A row's key is fresh when it is inserted. */
  lemma FreshKey(schemas: Schemas, ops: seq<Operation>)
    requires ops != [] && DistinctPlaces(ops)
    ensures KeyOf(schemas, ops[|ops| - 1]) !in RowsOf(schemas, ops[..|ops| - 1])
  {
    var n := |ops| - 1;
    if KeyOf(schemas, ops[n]) in RowsOf(schemas, ops[..n]) {
      RowHasPlace(schemas, ops[..n], KeyOf(schemas, ops[n]));
      assert false;
    }
  }

  lemma {:induction false} RowHasPlace(schemas: Schemas, ops: seq<Operation>, k: RowKey)
    requires k in RowsOf(schemas, ops)
    ensures exists i | 0 <= i < |ops| :: KeyOf(schemas, ops[i]) == k && RowsOf(schemas, ops)[k] == RowOf(ops[i])
  {
    var n := |ops| - 1;
    if KeyOf(schemas, ops[n]) != k {
      RowHasPlace(schemas, ops[..n], k);
      var i :| 0 <= i < n && KeyOf(schemas, ops[..n][i]) == k && RowsOf(schemas, ops[..n])[k] == RowOf(ops[..n][i]);
      assert ops[i] == ops[..n][i];
    }
  }

  lemma {:induction false} LatestWithout(schemas: Schemas, ops: seq<Operation>, i: nat, k: EntryKey)
    requires i < |ops| && EntryOf(schemas, ops[i]) != Some(k)
    ensures Latest(schemas, Without(ops, i), k) == Latest(schemas, ops, k)
  {
    var n := |ops| - 1;
    if i == n {
      assert Without(ops, i) == ops[..n];
    } else {
      assert Without(ops, i)[..n - 1] == Without(ops[..n], i);
      LatestWithout(schemas, ops[..n], i, k);
    }
  }

  /** Reverting any one inserted row leaves a store that shows exactly the others. */
  lemma RevertMatches(schemas: Schemas, v: Value, ops: seq<Operation>, i: nat)
    requires GoodSchemas(schemas) && Matches(schemas, v, ops) && Inserts(ops) && DistinctPlaces(ops) && i < |ops|
    ensures Matches(schemas, Apply(schemas, v, ops[i].Inverse()), Without(ops, i))
  {
    var op := ops[i];
    assert KeyOf(schemas, op.Inverse()) == KeyOf(schemas, op) && EntryOf(schemas, op.Inverse()) == EntryOf(schemas, op);
    RowsWithout(schemas, ops, i);
    forall k | k in v.entries && EntryOf(schemas, op) != Some(k)
        ensures Latest(schemas, Without(ops, i), k) == Some(v.entries[k]) {
      LatestWithout(schemas, ops, i, k);
    }
    forall t, f ensures Total(Without(ops, i), t, f) == Total(ops, t, f) + if t == op.table
        then Signed(Number(op.data, f), true) else 0.0 {
      TotalWithout(ops, i, t, f);
    }
    forall t ensures CountIn(Without(ops, i), t) == CountIn(ops, t) + if t != op.table then 0 else -1 {
      CountWithout(ops, i, t);
    }
    AggregatesMove(schemas, v.aggregates, ops, Without(ops, i), op, true);
  }

  /** Every key that some row has has its entry. */
  ghost predicate Complete(schemas: Schemas, entries: map<EntryKey, Row>, ops: seq<Operation>) {
    forall k :: k in entries <==> Latest(schemas, ops, k).Some?
  }

  lemma InsertKeepsEntries(schemas: Schemas, v: Value, ops: seq<Operation>, op: Operation)
    requires op.kind.Insert? && Complete(schemas, v.entries, ops)
    ensures Complete(schemas, Apply(schemas, v, op).entries, ops + [op])
  {
    assert (ops + [op])[..|ops|] == ops;
    forall k ensures k in Apply(schemas, v, op).entries <==> Latest(schemas, ops + [op], k).Some? {
      assert k in v.entries <==> Latest(schemas, ops, k).Some?;
    }
  }

  /** The limit on unique tables: reverting a row leaves the entries complete if and only
      if the row has no unique key, or no other row has the same one. Otherwise the older
      row stays without its entry. */
  lemma RevertKeepsEntriesIff(schemas: Schemas, v: Value, ops: seq<Operation>, i: nat)
    requires i < |ops| && ops[i].kind.Insert? && Complete(schemas, v.entries, ops)
    ensures var entry := EntryOf(schemas, ops[i]);
            Complete(schemas, Apply(schemas, v, ops[i].Inverse()).entries, Without(ops, i)) <==>
              entry.None? || Latest(schemas, Without(ops, i), entry.value).None?
  {
    var entry, after := EntryOf(schemas, ops[i]), Apply(schemas, v, ops[i].Inverse()).entries;
    assert EntryOf(schemas, ops[i].Inverse()) == entry;
    forall k | entry != Some(k) ensures k in after <==> Latest(schemas, Without(ops, i), k).Some? {
      LatestWithout(schemas, ops, i, k);
      assert k in v.entries <==> Latest(schemas, ops, k).Some?;
    }
    if entry.Some? {
      assert entry.value !in after;
    }
  }

  lemma RevertDropsTheEntry(schemas: Schemas, a: Operation, b: Operation, k: EntryKey)
    requires a.kind.Insert? && b.kind.Insert? && EntryOf(schemas, a) == EntryOf(schemas, b) == Some(k)
    ensures var v := Apply(schemas, Apply(schemas, Apply(schemas, EMPTY, a), b), b.Inverse());
            k !in v.entries && Latest(schemas, [a], k) == Some(RowOf(a))
  {
    assert EntryOf(schemas, b.Inverse()) == EntryOf(schemas, b);
  }
}
