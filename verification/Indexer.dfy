/** Reorg safety of the store over whole runs: processEvent, handleReorg and
    confirmBlocks (engine) over the PendingTracker and the memory store. */
module Indexer {
  import opened Store

  /** Operations of one block, in order. */
  function OfBlock(ops: seq<Operation>, b: nat): seq<Operation> {
    if ops == [] then [] else
    var n := |ops| - 1;
    OfBlock(ops[..n], b) + if ops[n].block == b then [ops[n]] else []
  }

  function NotOfBlock(ops: seq<Operation>, b: nat): seq<Operation> {
    if ops == [] then [] else
    var n := |ops| - 1;
    NotOfBlock(ops[..n], b) + if ops[n].block == b then [] else [ops[n]]
  }

  // ---- The reference: what should survive --------------------------------------------

  datatype Input =
    | Event(block: nat, contract: string, table: string, data: Data)
    | Reorg(start: nat, end: nat)

  /** Surviving operations in the order they arrived, and the first unconfirmed block. */
  datatype Ideal = Ideal(alive: seq<Operation>, confirmed: nat)

  /** A row's log index is its position among its block's surviving rows. */
  function Arrive(s: Ideal, block: nat, table: string, data: Data, depth: nat): Ideal {
    var op := NewOp(table, data, block, |OfBlock(s.alive, block)|);
    Ideal(s.alive + [op], if block >= depth && block - depth + 1 > s.confirmed then block - depth + 1 else s.confirmed)
  }

  predicate Reverts(op: Operation, start: nat, end: nat, confirmed: nat) {
    start <= op.block <= end && confirmed <= op.block
  }

  function Keep(ops: seq<Operation>, start: nat, end: nat, confirmed: nat): seq<Operation> {
    if ops == [] then [] else
    var n := |ops| - 1;
    Keep(ops[..n], start, end, confirmed) + if Reverts(ops[n], start, end, confirmed) then [] else [ops[n]]
  }

  function Step(s: Ideal, input: Input, depth: nat): Ideal {
    match input
    case Event(block, _, table, data) => Arrive(s, block, table, data, depth)
    case Reorg(start, end) => s.(alive := Keep(s.alive, start, end, s.confirmed))
  }

  function Survivors(script: seq<Input>, depth: nat): Ideal {
    if script == [] then Ideal([], 0) else
    var n := |script| - 1;
    Step(Survivors(script[..n], depth), script[n], depth)
  }

  /** No event arrives for a block already confirmed. */
  ghost predicate OnTime(script: seq<Input>, depth: nat) {
    forall i | 0 <= i < |script| && script[i].Event? :: script[i].block >= Survivors(script[..i], depth).confirmed
  }

  /** Each surviving row's log index is its position in its block. */
  ghost predicate Numbered(ops: seq<Operation>) {
    forall b, k | 0 <= k < |OfBlock(ops, b)| :: OfBlock(ops, b)[k].log == k
  }

  // ---- Blocks ---------------------------------------------------------------------

  lemma {:induction false} PositionInBlock(ops: seq<Operation>, i: nat)
    requires i < |ops|
    ensures |OfBlock(ops[..i], ops[i].block)| < |OfBlock(ops, ops[i].block)|
    ensures OfBlock(ops, ops[i].block)[|OfBlock(ops[..i], ops[i].block)|] == ops[i]
  {
    var n := |ops| - 1;
    if i < n {
      PositionInBlock(ops[..n], i);
      assert ops[..n][..i] == ops[..i];
    }
  }

  lemma {:induction false} PositionsGrow(ops: seq<Operation>, i: nat, j: nat, b: nat)
    requires i <= j <= |ops|
    ensures |OfBlock(ops[..i], b)| <= |OfBlock(ops[..j], b)|
    ensures i < j && ops[i].block == b ==> |OfBlock(ops[..i], b)| < |OfBlock(ops[..j], b)|
    decreases j
  {
    if i < j {
      PositionsGrow(ops, i, j - 1, b);
      assert ops[..j][..j - 1] == ops[..j - 1];
    }
  }

  lemma NumberedIsDistinct(ops: seq<Operation>)
    requires Numbered(ops)
    ensures DistinctPlaces(ops)
  {
    forall i, j | 0 <= i < j < |ops| ensures ops[i].block != ops[j].block || ops[i].log != ops[j].log {
      PositionInBlock(ops, i);
      PositionInBlock(ops, j);
      PositionsGrow(ops, i, j, ops[i].block);
    }
  }

  lemma {:induction false} OneFewer(ops: seq<Operation>, b: nat) returns (i: nat)
    requires OfBlock(ops, b) != []
    ensures i < |ops| && ops[i].block == b
    ensures OfBlock(ops, b) == OfBlock(Without(ops, i), b) + [ops[i]]
    ensures NotOfBlock(ops, b) == NotOfBlock(Without(ops, i), b)
    ensures forall c | c != b :: OfBlock(Without(ops, i), c) == OfBlock(ops, c)
  {
    var n := |ops| - 1;
    if ops[n].block == b {
      i := n;
      WithoutLast(ops, i);
    } else {
      i := OneFewer(ops[..n], b);
      WithoutLast(ops, i);
    }
  }

  lemma {:induction false} InBlock(ops: seq<Operation>, b: nat, k: nat)
    requires k < |OfBlock(ops, b)|
    ensures OfBlock(ops, b)[k].block == b && OfBlock(ops, b)[k] in ops
  {
    var n := |ops| - 1;
    if k < |OfBlock(ops[..n], b)| {
      InBlock(ops[..n], b, k);
    }
  }

  lemma {:induction false} NothingElse(ops: seq<Operation>, b: nat)
    requires OfBlock(ops, b) == []
    ensures NotOfBlock(ops, b) == ops
  {
    if ops != [] {
      var n := |ops| - 1;
      assert |OfBlock(ops, b)| == |OfBlock(ops[..n], b)| + if ops[n].block == b then 1 else 0;
      NothingElse(ops[..n], b);
      assert ops[..n] + [ops[n]] == ops;
    }
  }

  lemma {:induction false} BlocksAfter(ops: seq<Operation>, b: nat, c: nat)
    ensures OfBlock(NotOfBlock(ops, b), c) == if c == b then [] else OfBlock(ops, c)
  {
    if ops != [] {
      var n := |ops| - 1;
      BlocksAfter(ops[..n], b, c);
      if ops[n].block != b {
        assert NotOfBlock(ops, b)[..|NotOfBlock(ops, b)| - 1] == NotOfBlock(ops[..n], b);
      } else {
        assert NotOfBlock(ops, b) == NotOfBlock(ops[..n], b);
      }
    }
  }

  lemma {:induction false} InsertsStay(ops: seq<Operation>, b: nat)
    requires Inserts(ops)
    ensures Inserts(NotOfBlock(ops, b))
  {
    if ops != [] {
      InsertsStay(ops[..|ops| - 1], b);
    }
  }

  /** Reverting a block's operations, last first, leaves a store that shows exactly the
      rows of the other blocks. */
  lemma {:induction false} RevertingABlock(schemas: Schemas, v: Value, ops: seq<Operation>, b: nat)
    requires GoodSchemas(schemas) && Matches(schemas, v, ops) && Inserts(ops) && DistinctPlaces(ops)
    ensures Matches(schemas, ApplyAll(schemas, v, Reverted(OfBlock(ops, b))), NotOfBlock(ops, b))
    decreases |OfBlock(ops, b)|
  {
    var mine := OfBlock(ops, b);
    if mine == [] {
      NothingElse(ops, b);
    } else {
      var i := OneFewer(ops, b);
      RevertMatches(schemas, v, ops, i);
      assert mine[..|mine| - 1] == OfBlock(Without(ops, i), b);
      assert Reverted(mine)[1..] == Reverted(mine[..|mine| - 1]);
      RevertingABlock(schemas, Apply(schemas, v, ops[i].Inverse()), Without(ops, i), b);
    }
  }

  // ---- The tracker -------------------------------------------------------------------

  class PendingTracker {
    var blocks: map<nat, seq<Operation>>

    constructor ()
      ensures blocks == map[]
    {
      blocks := map[];
    }

    function GetBlock(block: nat): seq<Operation>
      reads this
    {
      if block in blocks then blocks[block] else []
    }

    method Track(block: nat, op: Operation)
      modifies this
      ensures blocks == old(blocks)[block := old(GetBlock(block)) + [op]]
    {
      blocks := blocks[block := GetBlock(block) + [op]];
    }

    method RemoveBlock(block: nat)
      modifies this
      ensures blocks == old(blocks) - {block}
    {
      blocks := blocks - {block};
    }

    method ConfirmUpTo(confirmBlock: nat)
      modifies this
      ensures blocks == map b | b in old(blocks) && b > confirmBlock :: old(blocks)[b]
    {
      var todo := blocks.Keys;
      while todo != {}
        invariant todo <= blocks.Keys <= old(blocks).Keys
        invariant forall b | b in blocks :: blocks[b] == old(blocks)[b] && (b in todo || b > confirmBlock)
        invariant forall b | b in old(blocks) && b > confirmBlock :: b in blocks
        decreases todo
      {
        var b :| b in todo;
        todo := todo - {b};
        if b <= confirmBlock {
          blocks := blocks - {b};
        }
      }
    }

    /** The pending blocks in ascending order (sort.Slice, taken as selection). */
    method BlockRange() returns (sorted: seq<nat>)
      ensures forall i, j | 0 <= i < j < |sorted| :: sorted[i] < sorted[j]
      ensures forall b :: b in sorted <==> b in blocks
    {
      sorted := [];
      var todo := blocks.Keys;
      while todo != {}
        invariant todo <= blocks.Keys
        invariant forall i, j | 0 <= i < j < |sorted| :: sorted[i] < sorted[j]
        invariant forall i, b | 0 <= i < |sorted| && b in todo :: sorted[i] < b
        invariant forall b :: b in blocks <==> b in sorted || b in todo
        decreases todo
      {
        var b := Lowest(todo);
        sorted, todo := sorted + [b], todo - {b};
      }
    }
  }

  method Lowest(s: set<nat>) returns (low: nat)
    requires s != {}
    ensures low in s && forall b | b in s :: low <= b
  {
    low :| low in s;
    var todo := s - {low};
    while todo != {}
      invariant todo <= s && low in s
      invariant forall b | b in s :: b in todo || low <= b
      decreases todo
    {
      var b :| b in todo;
      todo := todo - {b};
      if b < low {
        low := b;
      }
    }
  }

  // ---- The engine --------------------------------------------------------------------

  function IndexOf(logIndices: map<nat, nat>, b: nat): nat {
    if b in logIndices then logIndices[b] else 0
  }

  /** confirmBlocks forgets the counters of confirmed blocks. */
  function StillCounted(logIndices: map<nat, nat>, current: nat, depth: nat): map<nat, nat> {
    map b | b in logIndices && (current < depth || b > current - depth) :: logIndices[b]
  }

  /** The tracker holds exactly the unconfirmed surviving operations, block by block. */
  ghost predicate Tracks(blocks: map<nat, seq<Operation>>, alive: seq<Operation>, confirmed: nat) {
    && (forall b | b in blocks :: b >= confirmed && blocks[b] != [] && blocks[b] == OfBlock(alive, b))
    && (forall b | b >= confirmed && OfBlock(alive, b) != [] :: b in blocks)
  }

  /** An unconfirmed block's counter is the number of its surviving operations. */
  ghost predicate Counts(logIndices: map<nat, nat>, alive: seq<Operation>, confirmed: nat) {
    && (forall b | b in logIndices :: b >= confirmed)
    && (forall b | b >= confirmed :: IndexOf(logIndices, b) == |OfBlock(alive, b)|)
  }

  lemma ArrivalKeeps(blocks: map<nat, seq<Operation>>, logIndices: map<nat, nat>, alive: seq<Operation>, confirmed: nat,
                     op: Operation)
    requires Tracks(blocks, alive, confirmed) && Counts(logIndices, alive, confirmed) && Numbered(alive)
    requires op.block >= confirmed && op.log == |OfBlock(alive, op.block)|
    ensures var mine := if op.block in blocks then blocks[op.block] else [];
            Tracks(blocks[op.block := mine + [op]], alive + [op], confirmed)
    ensures Counts(logIndices[op.block := op.log + 1], alive + [op], confirmed)
    ensures Numbered(alive + [op])
  {
    ArrivalIsTracked(blocks, alive, confirmed, op);
    ArrivalIsCounted(logIndices, alive, confirmed, op);
    ArrivalIsNumbered(alive, op);
  }

  lemma ArrivalIsTracked(blocks: map<nat, seq<Operation>>, alive: seq<Operation>, confirmed: nat, op: Operation)
    requires Tracks(blocks, alive, confirmed) && op.block >= confirmed
    ensures var mine := if op.block in blocks then blocks[op.block] else [];
            Tracks(blocks[op.block := mine + [op]], alive + [op], confirmed)
  {
    var b := op.block;
    var mine := if b in blocks then blocks[b] else [];
    assert mine == OfBlock(alive, b);
    var after := blocks[b := mine + [op]];
    forall c | c in after ensures c >= confirmed && after[c] != [] && after[c] == OfBlock(alive + [op], c) {
      OneMoreOfBlock(alive, op, c);
    }
    forall c | c >= confirmed && OfBlock(alive + [op], c) != [] ensures c in after {
      OneMoreOfBlock(alive, op, c);
    }
  }

  lemma ArrivalIsCounted(logIndices: map<nat, nat>, alive: seq<Operation>, confirmed: nat, op: Operation)
    requires Counts(logIndices, alive, confirmed) && op.block >= confirmed && op.log == |OfBlock(alive, op.block)|
    ensures Counts(logIndices[op.block := op.log + 1], alive + [op], confirmed)
  {
    var after := logIndices[op.block := op.log + 1];
    forall b | b >= confirmed ensures IndexOf(after, b) == |OfBlock(alive + [op], b)| {
      OneMoreOfBlock(alive, op, b);
      assert IndexOf(logIndices, b) == |OfBlock(alive, b)|;
    }
  }

  lemma OneMoreOfBlock(alive: seq<Operation>, op: Operation, b: nat)
    ensures OfBlock(alive + [op], b) == if b == op.block then OfBlock(alive, b) + [op] else OfBlock(alive, b)
  {
    assert (alive + [op])[..|alive|] == alive;
    assert OfBlock(alive, b) + [] == OfBlock(alive, b);
  }

  lemma ArrivalIsNumbered(alive: seq<Operation>, op: Operation)
    requires Numbered(alive) && op.log == |OfBlock(alive, op.block)|
    ensures Numbered(alive + [op])
  {
    forall b, k | 0 <= k < |OfBlock(alive + [op], b)| ensures OfBlock(alive + [op], b)[k].log == k {
      OneMoreOfBlock(alive, op, b);
    }
  }

  lemma ConfirmingKeeps(blocks: map<nat, seq<Operation>>, logIndices: map<nat, nat>, alive: seq<Operation>,
                        confirmed: nat, upTo: nat)
    requires Tracks(blocks, alive, confirmed) && Counts(logIndices, alive, confirmed)
    ensures var above := if upTo + 1 > confirmed then upTo + 1 else confirmed;
            && Tracks(map b | b in blocks && b > upTo :: blocks[b], alive, above)
            && Counts(map b | b in logIndices && b > upTo :: logIndices[b], alive, above)
  {
  }

  lemma RemovingKeeps(blocks: map<nat, seq<Operation>>, logIndices: map<nat, nat>, alive: seq<Operation>,
                      confirmed: nat, b: nat)
    requires Tracks(blocks, alive, confirmed) && Counts(logIndices, alive, confirmed) && Numbered(alive)
    ensures Tracks(blocks - {b}, NotOfBlock(alive, b), confirmed)
    ensures Counts(logIndices - {b}, NotOfBlock(alive, b), confirmed)
    ensures Numbered(NotOfBlock(alive, b))
  {
    forall c ensures OfBlock(NotOfBlock(alive, b), c) == if c == b then [] else OfBlock(alive, c) {
      BlocksAfter(alive, b, c);
    }
  }

  function Drop(ops: seq<Operation>, gone: set<nat>): seq<Operation> {
    if ops == [] then [] else
    var n := |ops| - 1;
    Drop(ops[..n], gone) + if ops[n].block in gone then [] else [ops[n]]
  }

  lemma {:induction false} DropOneMore(ops: seq<Operation>, gone: set<nat>, b: nat)
    ensures NotOfBlock(Drop(ops, gone), b) == Drop(ops, gone + {b})
  {
    if ops != [] {
      var n := |ops| - 1;
      DropOneMore(ops[..n], gone, b);
      if ops[n].block !in gone {
        assert Drop(ops, gone)[..|Drop(ops, gone)| - 1] == Drop(ops[..n], gone);
      } else {
        assert Drop(ops, gone) == Drop(ops[..n], gone);
      }
    }
  }

  lemma {:induction false} DropNone(ops: seq<Operation>)
    ensures Drop(ops, {}) == ops
  {
    if ops != [] {
      DropNone(ops[..|ops| - 1]);
    }
  }

  lemma {:induction false} DropIsKeep(ops: seq<Operation>, gone: set<nat>, start: nat, end: nat, confirmed: nat)
    requires forall op | op in ops :: op.block in gone <==> Reverts(op, start, end, confirmed)
    ensures Drop(ops, gone) == Keep(ops, start, end, confirmed)
  {
    if ops != [] {
      DropIsKeep(ops[..|ops| - 1], gone, start, end, confirmed);
      assert ops[|ops| - 1] in ops;
    }
  }

  lemma {:induction false} BlockOccurs(ops: seq<Operation>, op: Operation)
    requires op in ops
    ensures OfBlock(ops, op.block) != []
  {
    var n := |ops| - 1;
    if op != ops[n] {
      BlockOccurs(ops[..n], op);
    }
  }

  /** The blocks of [start, end] listed from position i on. */
  ghost predicate Gone(blocks: seq<nat>, start: nat, end: nat, i: nat, gone: set<nat>) {
    && (forall b | b in gone :: b in blocks && start <= b <= end && forall k | 0 <= k < i && k < |blocks| ::
        blocks[k] != b)
    && (forall k | i <= k < |blocks| && start <= blocks[k] <= end :: blocks[k] in gone)
  }

  lemma GoneOneMore(blocks: seq<nat>, start: nat, end: nat, i: nat, gone: set<nat>)
    requires i < |blocks| && Gone(blocks, start, end, i + 1, gone)
    requires forall j, k | 0 <= j < k < |blocks| :: blocks[j] < blocks[k]
    ensures blocks[i] !in gone
    ensures Gone(blocks, start, end, i, if start <= blocks[i] <= end then gone + {blocks[i]} else gone)
  {
  }

  lemma WholeRange(were: map<nat, seq<Operation>>, ops: seq<Operation>, confirmed: nat, blocks: seq<nat>,
                   gone: set<nat>, start: nat, end: nat)
    requires Tracks(were, ops, confirmed) && forall b :: b in blocks <==> b in were
    requires Gone(blocks, start, end, 0, gone)
    ensures Drop(ops, gone) == Keep(ops, start, end, confirmed)
  {
    forall op | op in ops ensures op.block in gone <==> Reverts(op, start, end, confirmed) {
      BlockOccurs(ops, op);
    }
    DropIsKeep(ops, gone, start, end, confirmed);
  }

  function NewOp(table: string, data: Data, block: nat, log: nat): Operation {
    Operation(Insert, table, data, map[], block, log)
  }

  ghost predicate Consistent(schemas: Schemas, v: Value, blocks: map<nat, seq<Operation>>, logIndices: map<nat, nat>,
                             alive: seq<Operation>, confirmed: nat)
  {
    && GoodSchemas(schemas)
    && Matches(schemas, v, alive)
    && Inserts(alive) && Numbered(alive)
    && Tracks(blocks, alive, confirmed)
    && Counts(logIndices, alive, confirmed)
  }

  /** An event that is on time keeps everything. */
  lemma Arriving(schemas: Schemas, v: Value, blocks: map<nat, seq<Operation>>, logIndices: map<nat, nat>,
                 alive: seq<Operation>, confirmed: nat, op: Operation)
    requires Consistent(schemas, v, blocks, logIndices, alive, confirmed)
    requires op == NewOp(op.table, op.data, op.block, IndexOf(logIndices, op.block)) && op.block >= confirmed
    ensures op.log == |OfBlock(alive, op.block)|
    ensures var mine := if op.block in blocks then blocks[op.block] else [];
            Consistent(schemas, ApplyAll(schemas, v, [op]), blocks[op.block := mine + [op]],
                       logIndices[op.block := op.log + 1], alive + [op], confirmed)
  {
    InsertMatches(schemas, v, alive, op);
    assert ApplyAll(schemas, v, [op]) == Apply(schemas, v, op);
    ArrivalKeeps(blocks, logIndices, alive, confirmed, op);
  }

  lemma Confirming(schemas: Schemas, v: Value, blocks: map<nat, seq<Operation>>, logIndices: map<nat, nat>,
                   alive: seq<Operation>, confirmed: nat, upTo: nat)
    requires Consistent(schemas, v, blocks, logIndices, alive, confirmed)
    ensures Consistent(schemas, v, map b | b in blocks && b > upTo :: blocks[b],
                       map b | b in logIndices && b > upTo :: logIndices[b], alive,
                       if upTo + 1 > confirmed then upTo + 1 else confirmed)
  {
    ConfirmingKeeps(blocks, logIndices, alive, confirmed, upTo);
  }

  lemma Reverting(schemas: Schemas, v: Value, blocks: map<nat, seq<Operation>>, logIndices: map<nat, nat>,
                  alive: seq<Operation>, confirmed: nat, b: nat)
    requires Consistent(schemas, v, blocks, logIndices, alive, confirmed) && b in blocks
    ensures Consistent(schemas, ApplyAll(schemas, v, Reverted(blocks[b])), blocks - {b}, logIndices - {b},
                       NotOfBlock(alive, b), confirmed)
  {
    NumberedIsDistinct(alive);
    RevertingABlock(schemas, v, alive, b);
    RemovingKeeps(blocks, logIndices, alive, confirmed, b);
    InsertsStay(alive, b);
  }

  class Engine {
    const store: MemoryStore
    const pending: PendingTracker
    const confirmDepth: nat
    const contracts: seq<string>
    var logIndices: map<nat, nat>
    ghost var alive: seq<Operation>
    ghost var confirmed: nat

    constructor (schemas: Schemas, confirmDepth: nat, contracts: seq<string>)
      requires GoodSchemas(schemas)
      ensures Valid() && alive == [] && confirmed == 0 && fresh(store) && fresh(pending)
      ensures store.schemas == schemas && this.confirmDepth == confirmDepth && this.contracts == contracts
    {
      store := new MemoryStore(schemas);
      pending := new PendingTracker();
      this.confirmDepth, this.contracts, logIndices, alive, confirmed := confirmDepth, contracts, map[], [], 0;
    }

    ghost predicate Valid()
      reads this, pending, store`rows, store`entries, store`aggregates
    {
      Consistent(store.schemas, store.Contents(), pending.blocks, logIndices, alive, confirmed)
    }

    ghost function State(): Ideal
      reads this`alive, this`confirmed
    {
      Ideal(alive, confirmed)
    }

    method NextLogIndex(block: nat) returns (index: nat)
      modifies this`logIndices
      ensures index == old(IndexOf(logIndices, block)) && logIndices == old(logIndices)[block := index + 1]
    {
      index := if block in logIndices then logIndices[block] else 0;
      logIndices := logIndices[block := index + 1];
    }

    /** Number, apply and track. */
    method Number(block: nat, table: string, data: Data)
      modifies this`logIndices, this`alive, pending, store`rows, store`entries, store`aggregates
      ensures var op := NewOp(table, data, block, old(IndexOf(logIndices, block)));
              && store.Contents() == ApplyAll(store.schemas, old(store.Contents()), [op])
              && logIndices == old(logIndices)[block := op.log + 1]
              && pending.blocks == old(pending.blocks)[block := old(pending.GetBlock(block)) + [op]]
              && alive == old(alive) + [op]
    {
      var log := NextLogIndex(block);
      var op := NewOp(table, data, block, log);
      store.ApplyOperations([op]);
      pending.Track(block, op);
      alive := alive + [op];
    }

    /** An event that is on time keeps everything. */
    method Record(block: nat, table: string, data: Data)
      modifies this`logIndices, this`alive, pending, store`rows, store`entries, store`aggregates
      ensures var op := NewOp(table, data, block, old(IndexOf(logIndices, block)));
              && store.Contents() == ApplyAll(store.schemas, old(store.Contents()), [op])
              && logIndices == old(logIndices)[block := op.log + 1]
              && pending.blocks == old(pending.blocks)[block := old(pending.GetBlock(block)) + [op]]
              && alive == old(alive) + [op]
      ensures old(Valid()) && block >= confirmed ==>
              Valid() && old(IndexOf(logIndices, block)) == |OfBlock(old(alive), block)|
    {
      Number(block, table, data);
      if old(Valid()) && block >= confirmed {
        Arriving(store.schemas, old(store.Contents()), old(pending.blocks), old(logIndices), old(alive), confirmed,
                 alive[|alive| - 1]);
      }
    }

    /** processEvent, from the log index on: the event's table and fields are decoded. */
    method ProcessEvent(block: nat, contract: string, table: string, data: Data)
      modifies this`logIndices, this`alive, this`confirmed, store, pending
      ensures store.Contents() == ApplyAll(store.schemas, old(store.Contents()),
                                           [NewOp(table, data, block, old(IndexOf(logIndices, block)))])
      ensures store.cursors == old(store.cursors)[contract := block]
      ensures alive == old(alive) + [NewOp(table, data, block, old(IndexOf(logIndices, block)))]
      ensures logIndices == StillCounted(old(logIndices)[block := old(IndexOf(logIndices, block)) + 1], block,
                                         confirmDepth)
      ensures old(Valid()) && block >= old(confirmed) ==>
              Valid() && State() == Arrive(old(State()), block, table, data, confirmDepth)
    {
      Record(block, table, data);
      store.SetCursor(contract, block);
      ConfirmBlocks(block);
    }

    method ConfirmBlocks(current: nat)
      modifies this`logIndices, this`confirmed, pending
      ensures old(Valid()) ==> Valid()
      ensures logIndices == StillCounted(old(logIndices), current, confirmDepth)
      ensures confirmed == if current >= confirmDepth && current - confirmDepth + 1 > old(confirmed)
                           then current - confirmDepth + 1 else old(confirmed)
    {
      if current < confirmDepth {
        return;
      }
      var upTo := current - confirmDepth;
      if Valid() {
        Confirming(store.schemas, store.Contents(), pending.blocks, logIndices, alive, confirmed, upTo);
      }
      pending.ConfirmUpTo(upTo);
      DeleteIndices(upTo);
      confirmed := if upTo + 1 > confirmed then upTo + 1 else confirmed;
    }

    method DeleteIndices(upTo: nat)
      modifies this`logIndices
      ensures logIndices == map b | b in old(logIndices) && b > upTo :: old(logIndices)[b]
    {
      var todo := logIndices.Keys;
      while todo != {}
        invariant todo <= logIndices.Keys <= old(logIndices).Keys
        invariant forall b | b in logIndices :: logIndices[b] == old(logIndices)[b] && (b in todo || b > upTo)
        invariant forall b | b in old(logIndices) && b > upTo :: b in logIndices
        decreases todo
      {
        var b :| b in todo;
        todo := todo - {b};
        if b <= upTo {
          logIndices := logIndices - {b};
        }
      }
    }

    method RevertBlock(block: nat)
      requires Valid()
      modifies this`logIndices, this`alive, pending, store`rows, store`entries, store`aggregates
      ensures Valid() && alive == if block in old(pending.blocks) then NotOfBlock(old(alive), block) else old(alive)
      ensures pending.blocks == old(pending.blocks) - {block}
    {
      var ops := pending.GetBlock(block);
      if |ops| == 0 {
        return;
      }
      Reverting(store.schemas, store.Contents(), pending.blocks, logIndices, alive, confirmed, block);
      store.RevertOperations(ops);
      pending.RemoveBlock(block);
      logIndices := logIndices - {block};
      alive := NotOfBlock(alive, block);
    }

    /** handleReorg: the pending blocks of [start, end], highest first, then the cursors. */
    method HandleReorg(start: nat, end: nat)
      requires Valid()
      modifies this`logIndices, this`alive, pending, store
      ensures Valid() && State() == Ideal(Keep(old(alive), start, end, confirmed), confirmed)
      ensures forall c | c in contracts :: store.GetCursor(c) ==
                if old(store.GetCursor(c)) < start then old(store.GetCursor(c)) else if start > 0 then start - 1 else 0
    {
      RevertRange(start, end);
      ResetCursors(start, if start > 0 then start - 1 else start);
    }

    method RevertRange(start: nat, end: nat)
      requires Valid()
      modifies this`logIndices, this`alive, pending, store`rows, store`entries, store`aggregates
      ensures Valid() && alive == Keep(old(alive), start, end, confirmed)
    {
      var blocks := pending.BlockRange();
      ghost var ops, were, gone: set<nat> := alive, pending.blocks, {};
      DropNone(ops);
      for i := |blocks| downto 0
        invariant Valid() && alive == Drop(ops, gone) && pending.blocks == were - gone
        invariant Gone(blocks, start, end, i, gone)
      {
        GoneOneMore(blocks, start, end, i, gone);
        if start <= blocks[i] <= end {
          RevertOneMore(blocks[i], ops, were, gone);
          gone := gone + {blocks[i]};
        }
      }
      WholeRange(were, ops, confirmed, blocks, gone, start, end);
    }

    method RevertOneMore(block: nat, ghost ops: seq<Operation>, ghost were: map<nat, seq<Operation>>,
                         ghost gone: set<nat>)
      requires Valid() && alive == Drop(ops, gone) && pending.blocks == were - gone && block in were && block !in gone
      modifies this`logIndices, this`alive, pending, store`rows, store`entries, store`aggregates
      ensures Valid() && alive == Drop(ops, gone + {block}) && pending.blocks == were - (gone + {block})
    {
      DropOneMore(ops, gone, block);
      RevertBlock(block);
    }

    method ResetCursors(start: nat, newCursor: nat)
      requires newCursor <= start
      modifies store`cursors
      ensures forall c | c in contracts :: store.GetCursor(c) ==
                if old(store.GetCursor(c)) >= start then newCursor else old(store.GetCursor(c))
    {
      for i := 0 to |contracts|
        invariant forall c | c in contracts[..i] :: store.GetCursor(c) ==
                    if old(store.GetCursor(c)) >= start then newCursor else old(store.GetCursor(c))
        invariant forall c | c !in contracts[..i] :: store.GetCursor(c) == old(store.GetCursor(c))
      {
        if store.GetCursor(contracts[i]) >= start {
          store.SetCursor(contracts[i], newCursor);
        }
      }
    }

    /** Any run of events and reorgs in which no event is late: the store shows exactly
        the surviving rows. */
    method Run(script: seq<Input>)
      requires Valid() && alive == [] && confirmed == 0 && OnTime(script, confirmDepth)
      modifies this`logIndices, this`alive, this`confirmed, store, pending
      ensures Valid() && State() == Survivors(script, confirmDepth)
      ensures Matches(store.schemas, store.Contents(), Survivors(script, confirmDepth).alive)
    {
      for i := 0 to |script|
        invariant Valid() && State() == Survivors(script[..i], confirmDepth)
      {
        assert script[..i + 1][..i] == script[..i];
        match script[i]
        case Event(block, contract, table, data) => ProcessEvent(block, contract, table, data);
        case Reorg(start, end) => HandleReorg(start, end);
      }
      assert script[..|script|] == script;
    }
  }

  // ---- What that means --------------------------------------------------------------

  lemma {:induction false} ReplayMatches(schemas: Schemas, ops: seq<Operation>)
    requires GoodSchemas(schemas) && Inserts(ops)
    ensures Matches(schemas, Replay(schemas, ops), ops)
  {
    if ops == [] {
      NothingMatches(schemas);
    } else {
      var n := |ops| - 1;
      ReplayMatches(schemas, ops[..n]);
      InsertMatches(schemas, Replay(schemas, ops[..n]), ops[..n], ops[n]);
      assert ops[..n] + [ops[n]] == ops;
    }
  }

  /** Applying operations one after the other to an empty store. */
  function Replay(schemas: Schemas, ops: seq<Operation>): Value {
    if ops == [] then EMPTY else
    var n := |ops| - 1;
    Apply(schemas, Replay(schemas, ops[..n]), ops[n])
  }

  lemma {:induction false} ReplayHasLatest(schemas: Schemas, ops: seq<Operation>, k: EntryKey)
    requires Inserts(ops)
    ensures k in Replay(schemas, ops).entries <==> Latest(schemas, ops, k).Some?
  {
    if ops != [] {
      ReplayHasLatest(schemas, ops[..|ops| - 1], k);
    }
  }

  /** A store that shows the survivors equals a store that only ever applied them: same
      rows, same aggregates; a unique entry, where there is one, is the same and its
      row is live. Only a missing unique entry can tell the two apart. */
  lemma MatchesMeansReplay(schemas: Schemas, v: Value, ops: seq<Operation>)
    requires GoodSchemas(schemas) && Matches(schemas, v, ops) && Inserts(ops)
    ensures var r := Replay(schemas, ops);
            && v.rows == r.rows
            && (forall k | k in v.entries :: k in r.entries && v.entries[k] == r.entries[k])
            && (forall t, i | t in schemas && 0 <= i < |SpecsOf(schemas, t)| ::
                  At(v.aggregates, t, Plain(SpecsOf(schemas, t)[i].column)) ==
                      At(r.aggregates, t, Plain(SpecsOf(schemas, t)[i].column)))
  {
    var r := Replay(schemas, ops);
    ReplayMatches(schemas, ops);
    forall k | k in v.entries ensures k in r.entries && v.entries[k] == r.entries[k] {
      ReplayHasLatest(schemas, ops, k);
    }
    forall t, i | t in schemas && 0 <= i < |SpecsOf(schemas, t)|
      ensures At(v.aggregates, t, Plain(SpecsOf(schemas, t)[i].column)) ==
              At(r.aggregates, t, Plain(SpecsOf(schemas, t)[i].column))
    {
      var spec := SpecsOf(schemas, t)[i];
      assert Shows(v.aggregates, t, spec, Total(ops, t, spec.field), CountIn(ops, t));
      assert Shows(r.aggregates, t, spec, Total(ops, t, spec.field), CountIn(ops, t));
    }
  }

  ghost predicate RowsKept(before: map<RowKey, Row>, after: map<RowKey, Row>) {
    forall k | k in before :: k in after && after[k] == before[k]
  }

  lemma RowsKeptIff(schemas: Schemas, v: Value, op: Operation)
    requires op.kind.Insert?
    ensures var rows := ApplyAll(schemas, v, [op]).rows;
            && rows == v.rows[KeyOf(schemas, op) := RowOf(op)]
            && (RowsKept(v.rows, rows) <==> (KeyOf(schemas, op) in v.rows ==> v.rows[KeyOf(schemas, op)] == RowOf(op)))
  {
    assert ApplyAll(schemas, v, [op]) == Apply(schemas, v, op);
  }

  /** When an event costs a row, late or not: if and only if the key made of its block's
      counter already belongs to a different row. */
  method ArrivalKeepsRowsIff(e: Engine, block: nat, contract: string, table: string, data: Data)
    modifies e`logIndices, e`alive, e`confirmed, e.store, e.pending
    ensures var op := NewOp(table, data, block, old(IndexOf(e.logIndices, block)));
            var key, rows := KeyOf(e.store.schemas, op), old(e.store.rows);
            && e.store.rows == rows[key := RowOf(op)]
            && (RowsKept(rows, e.store.rows) <==> (key in rows ==> rows[key] == RowOf(op)))
    ensures IndexOf(e.logIndices, block) == if e.confirmDepth > 0 then old(IndexOf(e.logIndices, block)) + 1 else 0
  {
    RowsKeptIff(e.store.schemas, e.store.Contents(), NewOp(table, data, block, IndexOf(e.logIndices, block)));
    e.ProcessEvent(block, contract, table, data);
  }

  /** The limit on late events: the counter of a confirmed block starts again. So of two
      late rows in a row the first costs a row if and only if its table (and emitter, if
      shared) has one at index 0 of the block, and the second if and only if at index 1. */
  method LateRowsOverwriteIff(e: Engine, block: nat, contract: string, table: string, first: Data, second: Data)
    returns (ghost before: map<RowKey, Row>, ghost between: map<RowKey, Row>)
    requires e.Valid() && block < e.confirmed && e.confirmDepth > 0
    modifies e`logIndices, e`alive, e`confirmed, e.store, e.pending
    ensures var op0, op1 := NewOp(table, first, block, 0), NewOp(table, second, block, 1);
            var k0, k1 := KeyOf(e.store.schemas, op0), KeyOf(e.store.schemas, op1);
            && before == old(e.store.rows) && between == before[k0 := RowOf(op0)] &&
               e.store.rows == between[k1 := RowOf(op1)]
            && (RowsKept(before, between) <==> (k0 in before ==> before[k0] == RowOf(op0)))
            && (RowsKept(between, e.store.rows) <==> (k1 in before ==> before[k1] == RowOf(op1)))
  {
    before := e.store.rows;
    assert IndexOf(e.logIndices, block) == 0;
    ArrivalKeepsRowsIff(e, block, contract, table, first);
    between := e.store.rows;
    ArrivalKeepsRowsIff(e, block, contract, table, second);
  }
}
