/** Collective reconcile (childReconcileTick) against individual reconcile
    (reconcileTick): one address-less query serves every child, and with a stable
    chain, no failure and every member active throughout, each child gets exactly
    what a tick of its own would have given it. Reconcilers are values here, since
    nothing else touches them during such a tick. */
module Collective {
  import opened Events
  import opened Reconcile

  /** One child's share of blocks lo, ..., hi - 1. */
  function Share(chain: Chain, a: Addr, floor: nat, lo: nat, hi: nat): seq<Event> {
    Filter(Range(chain, lo, hi), (e: Event) => e.id.from == a && floor <= e.block)
  }

  /** What reconciling a child up to `to` should deliver, in one piece and whatever the
      chunking: the occurrences of (last, to] its live path had not delivered. */
  function Recoverable(chain: Chain, a: Addr, floor: nat, r: Rec, to: nat): seq<Event> {
    Missing(Share(chain, a, floor, r.last + 1, to + 1), r.seen)
  }

  lemma {:induction false} FilterConcat(a: seq<Event>, b: seq<Event>, keep: Event -> bool)
    ensures Filter(a + b, keep) == Filter(a, keep) + Filter(b, keep)
  {
    if b == [] {
      assert a + b == a;
    } else {
      assert (a + b)[..|a + b| - 1] == a + b[..|b| - 1];
      FilterConcat(a, b[..|b| - 1], keep);
    }
  }

  lemma {:induction false} FilterMembers(es: seq<Event>, keep: Event -> bool, e: Event)
    ensures e in Filter(es, keep) <==> e in es && keep(e)
  {
    CountPositive(Filter(es, keep), e);
    CountPositive(es, e);
    FilterCount(es, keep, e);
  }

  lemma ShareSplit(chain: Chain, a: Addr, floor: nat, lo: nat, mid: nat, hi: nat)
    requires lo <= mid <= hi
    ensures Share(chain, a, floor, lo, hi) == Share(chain, a, floor, lo, mid) + Share(chain, a, floor, mid, hi)
  {
    RangeSplit(chain, lo, mid, hi);
    FilterConcat(Range(chain, lo, mid), Range(chain, mid, hi), (e: Event) => e.id.from == a && floor <= e.block);
  }

  lemma ShareBlocks(chain: Chain, a: Addr, floor: nat, lo: nat, hi: nat, e: Event)
    requires WellFormed(chain) && e in Share(chain, a, floor, lo, hi)
    ensures lo <= e.block < hi && e.id.from == a
  {
    FilterMembers(Range(chain, lo, hi), (x: Event) => x.id.from == a && floor <= x.block, e);
    var i :| 0 <= i < |Range(chain, lo, hi)| && Range(chain, lo, hi)[i] == e;
    RangeBlocks(chain, lo, hi, i);
  }

  lemma {:induction false} MissingAgrees(es: seq<Event>, s0: Seen, s1: Seen)
    requires forall e | e in es :: Times(s0, e) == Times(s1, e)
    ensures Missing(es, s0) == Missing(es, s1)
  {
    if es != [] {
      MissingAgrees(es[..|es| - 1], s0, s1);
      assert es[|es| - 1] in es;
    }
  }

  lemma {:induction false} MissingConcat(a: seq<Event>, b: seq<Event>, seen: Seen)
    requires forall e | e in b :: e !in a
    ensures Missing(a + b, seen) == Missing(a, seen) + Missing(b, seen)
  {
    if b == [] {
      assert a + b == a;
    } else {
      var n := |b| - 1;
      assert (a + b)[..|a + b| - 1] == a + b[..n];
      MissingConcat(a, b[..n], seen);
      CountConcat(a, b[..n], b[n]);
      CountPositive(a, b[n]);
      assert b[n] in b;
    }
  }

  /** Recovering up to `mid` first and then from there is the same as in one go, if the
      state in between counts the blocks from mid on as before. */
  lemma RecoveryInTwo(chain: Chain, a: Addr, floor: nat, r0: Rec, seen: Seen, mid: nat, hi: nat)
    requires WellFormed(chain) && r0.last + 1 <= mid <= hi
    requires forall e: Event | e.block >= mid :: Times(seen, e) == Times(r0.seen, e)
    ensures Missing(Share(chain, a, floor, r0.last + 1, hi), r0.seen) ==
            Missing(Share(chain, a, floor, r0.last + 1, mid), r0.seen) + Missing(Share(chain, a, floor, mid, hi), seen)
  {
    var x, y := Share(chain, a, floor, r0.last + 1, mid), Share(chain, a, floor, mid, hi);
    ShareSplit(chain, a, floor, r0.last + 1, mid, hi);
    forall e | e in y ensures e.block >= mid && e !in x {
      ShareBlocks(chain, a, floor, mid, hi, e);
      if e in x {
        ShareBlocks(chain, a, floor, r0.last + 1, mid, e);
      }
    }
    MissingConcat(x, y, r0.seen);
    MissingAgrees(y, seen, r0.seen);
  }

  /** Send and mark: nothing above the marked blocks changes. */
  method Deliver(r: Rec, miss: seq<Event>, end: nat) returns (r': Rec, sent: seq<Event>)
    requires forall e | e in miss :: e.block <= end
    ensures sent == miss
    ensures r'.last == r.last && r'.ready == r.ready && r'.epoch == r.epoch
    ensures SameFrom(r.seen, r'.seen, end + 1)
  {
    r', sent := r, [];
    for i := 0 to |miss|
      invariant sent == miss[..i]
      invariant r'.last == r.last && r'.ready == r.ready && r'.epoch == r.epoch
      invariant forall e: Event | e.block > end :: Times(r'.seen, e) == Times(r.seen, e)
    {
      sent := sent + [miss[i]];
      assert miss[i] in miss;
      r' := r'.Add(miss[i]);
    }
  }

  /** deliverMissed for one child's events of blocks lo, ..., end. */
  method DeliverShare(chain: Chain, a: Addr, floor: nat, r: Rec, lo: nat, end: nat) returns (r': Rec, sent: seq<Event>)
    requires WellFormed(chain)
    ensures sent == Missing(Share(chain, a, floor, lo, end + 1), r.seen)
    ensures r'.last == r.last
    ensures SameFrom(r.seen, r'.seen, end + 1)
  {
    var kept := Share(chain, a, floor, lo, end + 1);
    var miss := Missing(kept, r.seen);
    forall e | e in miss ensures e.block <= end {
      MissingMembers(kept, r.seen, e);
      ShareBlocks(chain, a, floor, lo, end + 1, e);
    }
    r', sent := Deliver(r, miss, end);
  }

  lemma {:induction false} MissingMembers(es: seq<Event>, seen: Seen, e: Event)
    requires e in Missing(es, seen)
    ensures e in es
  {
    if es != [] && e != es[|es| - 1] {
      MissingMembers(es[..|es| - 1], seen, e);
    }
  }

  /** How far a tick got with one child: what blocks last + 1, ..., m - 1 lacked is out,
      and blocks from m on count as before. */
  ghost predicate Recovered(chain: Chain, a: Addr, floor: nat, r0: Rec, r: Rec, sent: seq<Event>, m: nat) {
    && r0.last < m && r.last == m - 1
    && sent == Missing(Share(chain, a, floor, r0.last + 1, m), r0.seen)
    && SameFrom(r0.seen, r.seen, m)
  }

  ghost predicate SameFrom(s0: Seen, s1: Seen, m: nat) {
    forall e: Event | e.block >= m :: Times(s1, e) == Times(s0, e)
  }

  lemma NothingRecovered(chain: Chain, a: Addr, floor: nat, r: Rec)
    ensures Recovered(chain, a, floor, r, r, [], r.last + 1)
  {
    assert Range(chain, r.last + 1, r.last + 1) == [];
  }

  lemma ShareRecovered(chain: Chain, a: Addr, floor: nat, r0: Rec, r: Rec, sent: seq<Event>, m: nat,
                       r': Rec, more: seq<Event>, end: nat)
    requires WellFormed(chain) && Recovered(chain, a, floor, r0, r, sent, m) && m <= end
    requires more == Missing(Share(chain, a, floor, m, end + 1), r.seen)
    requires r'.last == r.last && SameFrom(r.seen, r'.seen, end + 1)
    ensures Recovered(chain, a, floor, r0, r'.Advance(end), sent + more, end + 1)
  {
    RecoveryInTwo(chain, a, floor, r0, r.seen, m, end + 1);
    LaterStill(r0.seen, r, r', m, end);
  }

  lemma LaterStill(seen: Seen, r: Rec, r': Rec, m: nat, end: nat)
    requires SameFrom(seen, r.seen, m) && m <= end + 1 && SameFrom(r.seen, r'.seen, end + 1)
    ensures SameFrom(seen, r'.Advance(end).seen, end + 1)
  {
    LaterAgrees(seen, r.seen, r'.seen, end + 1, end + 1);
    AdvancePrunes(r', end);
    LaterAgrees(seen, r'.seen, r'.Advance(end).seen, end + 1, end + 1);
  }

  lemma AdvancePrunes(r: Rec, end: nat)
    ensures SameFrom(r.seen, r.Advance(end).seen, end + 1)
  {
  }

  /** One chunk of a tick for one child. */
  method RecoverShare(chain: Chain, a: Addr, floor: nat, ghost r0: Rec, r: Rec, sent: seq<Event>, m: nat,
                      blocksPerQuery: nat, to: nat)
    returns (r': Rec, sent': seq<Event>, next: nat)
    requires WellFormed(chain) && blocksPerQuery > 0 && Recovered(chain, a, floor, r0, r, sent, m) && m <= to
    ensures m < next <= to + 1 && Recovered(chain, a, floor, r0, r', sent', next)
  {
    var end := if m + blocksPerQuery - 1 <= to then m + blocksPerQuery - 1 else to;
    var marked, more := DeliverShare(chain, a, floor, r, m, end);
    ShareRecovered(chain, a, floor, r0, r, sent, m, marked, more, end);
    r', sent', next := marked.Advance(end), sent + more, end + 1;
  }

  /** reconcileTick and reconcileRange on the child's own scope. */
  method IndividualTick(chain: Chain, a: Addr, floor: nat, r: Rec, blocksPerQuery: nat, to: nat)
      returns (r': Rec, sent: seq<Event>)
    requires WellFormed(chain) && blocksPerQuery > 0 && r.last < to
    ensures Recovered(chain, a, floor, r, r', sent, to + 1)
  {
    r', sent := r, [];
    NothingRecovered(chain, a, floor, r);
    var cur := r.last + 1;
    while cur <= to
      invariant cur <= to + 1 && Recovered(chain, a, floor, r, r', sent, cur)
      decreases (to as int) - cur
    {
      r', sent, cur := RecoverShare(chain, a, floor, r, r', sent, cur, blocksPerQuery, to);
    }
  }

  // ---- The collective tick -------------------------------------------------------

  lemma {:induction false} FilterAgrees(es: seq<Event>, f: Event -> bool, g: Event -> bool)
    requires forall e | e in es :: f(e) == g(e)
    ensures Filter(es, f) == Filter(es, g)
  {
    if es != [] {
      FilterAgrees(es[..|es| - 1], f, g);
      assert es[|es| - 1] in es;
    }
  }

  lemma {:induction false} FilterAll(es: seq<Event>, f: Event -> bool)
    requires forall e | e in es :: f(e)
    ensures Filter(es, f) == es
  {
    if es != [] {
      FilterAll(es[..|es| - 1], f);
      assert es[|es| - 1] in es;
    }
  }

  lemma FilterNone(es: seq<Event>, f: Event -> bool)
    requires forall e | e in es :: !f(e)
    ensures Filter(es, f) == []
  {
    if Filter(es, f) != [] {
      FilterMembers(es, f, Filter(es, f)[0]);
      assert false;
    }
  }

  /** byAddr[a]: the child's events of a chunk that lie above what it has reconciled. */
  function Batch(chain: Chain, a: Addr, floor: nat, last: nat, cur: nat, end: nat): seq<Event> {
    Filter(Range(chain, cur, end + 1), (e: Event) => e.id.from == a && floor <= e.block && e.block > last)
  }

  lemma BatchIsShare(chain: Chain, a: Addr, floor: nat, last: nat, cur: nat, end: nat)
    requires WellFormed(chain) && cur <= end && last <= end
    ensures Batch(chain, a, floor, last, cur, end) ==
            Share(chain, a, floor, if cur > last then cur else last + 1, end + 1)
  {
    var m := if cur > last then cur else last + 1;
    var low, high := Range(chain, cur, m), Range(chain, m, end + 1);
    var batch := (e: Event) => e.id.from == a && floor <= e.block && e.block > last;
    RangeSplit(chain, cur, m, end + 1);
    FilterConcat(low, high, batch);
    forall e | e in low ensures !batch(e) {
      var i :| 0 <= i < |low| && low[i] == e;
      RangeBlocks(chain, cur, m, i);
    }
    FilterNone(low, batch);
    forall e | e in high ensures e.block > last {
      var i :| 0 <= i < |high| && high[i] == e;
      RangeBlocks(chain, m, end + 1, i);
    }
    FilterAgrees(high, batch, (e: Event) => e.id.from == a && floor <= e.block);
  }

  function Pos(cur: nat, r0: Rec): nat {
    if cur > r0.last then cur else r0.last + 1
  }

  /** One member's turn in a chunk. The source delivers to all members and then advances
      all of them; no member's reconciler is read in another member's turn. */
  method MemberTurn(chain: Chain, a: Addr, floor: nat, ghost r0: Rec, r: Rec, ghost sent: seq<Event>, cur: nat,
                    end: nat)
    returns (r': Rec, more: seq<Event>)
    requires WellFormed(chain) && cur <= end && Recovered(chain, a, floor, r0, r, sent, Pos(cur, r0))
    ensures Recovered(chain, a, floor, r0, r', sent + more, Pos(end + 1, r0))
    ensures forall e | e in more :: e.id.from == a
  {
    var miss := Missing(Batch(chain, a, floor, r.last, cur, end), r.seen);
    forall e | e in miss ensures e.id.from == a && e.block <= end {
      MissingMembers(Batch(chain, a, floor, r.last, cur, end), r.seen, e);
      BatchMembers(chain, a, floor, r.last, cur, end, e);
    }
    var marked;
    marked, more := Deliver(r, miss, end);
    r' := marked.Advance(end);
    TurnRecovered(chain, a, floor, r0, r, sent, cur, end, marked, more);
  }

  /** A chunk wholly behind the member changes nothing. */
  lemma TurnSkipped(chain: Chain, a: Addr, floor: nat, r0: Rec, r: Rec, sent: seq<Event>, cur: nat, end: nat,
                    marked: Rec)
    requires cur <= end < Pos(cur, r0) && Recovered(chain, a, floor, r0, r, sent, Pos(cur, r0))
    requires marked.last == r.last && SameFrom(r.seen, marked.seen, end + 1)
    ensures Recovered(chain, a, floor, r0, marked.Advance(end), sent, Pos(end + 1, r0))
  {
    LaterAgrees(r0.seen, r.seen, marked.seen, Pos(end + 1, r0), end + 1);
  }

  lemma TurnTaken(chain: Chain, a: Addr, floor: nat, r0: Rec, r: Rec, sent: seq<Event>, cur: nat, end: nat, marked: Rec,
                  more: seq<Event>)
    requires WellFormed(chain) && Pos(cur, r0) <= end && Recovered(chain, a, floor, r0, r, sent, Pos(cur, r0))
    requires more == Missing(Batch(chain, a, floor, r.last, cur, end), r.seen)
    requires marked.last == r.last && SameFrom(r.seen, marked.seen, end + 1)
    ensures Recovered(chain, a, floor, r0, marked.Advance(end), sent + more, end + 1)
  {
    BatchIsShare(chain, a, floor, r.last, cur, end);
    ShareRecovered(chain, a, floor, r0, r, sent, Pos(cur, r0), marked, more, end);
  }

  lemma TurnRecovered(chain: Chain, a: Addr, floor: nat, r0: Rec, r: Rec, sent: seq<Event>, cur: nat, end: nat,
                      marked: Rec, more: seq<Event>)
    requires WellFormed(chain) && cur <= end && Recovered(chain, a, floor, r0, r, sent, Pos(cur, r0))
    requires more == Missing(Batch(chain, a, floor, r.last, cur, end), r.seen)
    requires marked.last == r.last && SameFrom(r.seen, marked.seen, end + 1)
    ensures Recovered(chain, a, floor, r0, marked.Advance(end), sent + more, Pos(end + 1, r0))
  {
    if end < Pos(cur, r0) {
      FilterNoneInBatch(chain, a, floor, r.last, cur, end);
      TurnSkipped(chain, a, floor, r0, r, sent, cur, end, marked);
      assert sent + more == sent;
    } else {
      TurnTaken(chain, a, floor, r0, r, sent, cur, end, marked, more);
    }
  }

  lemma LaterAgrees(s0: Seen, s1: Seen, s2: Seen, m: nat, n: nat)
    requires (forall e: Event | e.block >= m :: Times(s1, e) == Times(s0, e)) && SameFrom(s1, s2, n) && n <= m
    ensures SameFrom(s0, s2, m)
  {
    forall e: Event | e.block >= m ensures Times(s2, e) == Times(s0, e) {
      assert Times(s1, e) == Times(s0, e) && Times(s2, e) == Times(s1, e);
    }
  }

  lemma BatchMembers(chain: Chain, a: Addr, floor: nat, last: nat, cur: nat, end: nat, e: Event)
    requires WellFormed(chain) && e in Batch(chain, a, floor, last, cur, end)
    ensures e.id.from == a && last < e.block <= end
  {
    FilterMembers(Range(chain, cur, end + 1), (x: Event) => x.id.from == a && floor <= x.block && x.block > last, e);
    var i :| 0 <= i < |Range(chain, cur, end + 1)| && Range(chain, cur, end + 1)[i] == e;
    RangeBlocks(chain, cur, end + 1, i);
  }

  lemma FilterNoneInBatch(chain: Chain, a: Addr, floor: nat, last: nat, cur: nat, end: nat)
    requires WellFormed(chain) && end <= last
    ensures Batch(chain, a, floor, last, cur, end) == []
  {
    if Batch(chain, a, floor, last, cur, end) != [] {
      BatchMembers(chain, a, floor, last, cur, end, Batch(chain, a, floor, last, cur, end)[0]);
      assert false;
    }
  }

  type Members = map<Addr, Rec>

  /** The members among `who` that are not recovered up to `cur`. */
  ghost function Behind(chain: Chain, floors: map<Addr, nat>, r0: Members, r: Members, sent: seq<Event>, cur: nat,
                        who: set<Addr>): set<Addr>
    requires who <= r0.Keys && who <= r.Keys && who <= floors.Keys
  {
    set a | a in who && !Recovered(chain, a, floors[a], r0[a], r[a], From(sent, a), Pos(cur, r0[a]))
  }

  ghost predicate AllRecovered(chain: Chain, floors: map<Addr, nat>, r0: Members, r: Members, sent: seq<Event>,
                               cur: nat, who: set<Addr>)
    requires who <= r0.Keys && who <= r.Keys && who <= floors.Keys
  {
    Behind(chain, floors, r0, r, sent, cur, who) == {}
  }

  lemma IsRecovered(chain: Chain, floors: map<Addr, nat>, r0: Members, r: Members, sent: seq<Event>, cur: nat,
                    who: set<Addr>, a: Addr)
    requires who <= r0.Keys && who <= r.Keys && who <= floors.Keys && a in who
    requires AllRecovered(chain, floors, r0, r, sent, cur, who)
    ensures Recovered(chain, a, floors[a], r0[a], r[a], From(sent, a), Pos(cur, r0[a]))
  {
    assert a !in Behind(chain, floors, r0, r, sent, cur, who);
  }

  lemma OfTurn(sent: seq<Event>, more: seq<Event>, a: Addr, b: Addr)
    requires forall e | e in more :: e.id.from == a
    ensures From(sent + more, b) == if b == a then From(sent, a) + more else From(sent, b)
  {
    FilterConcat(sent, more, (e: Event) => e.id.from == b);
    if b == a {
      FilterAll(more, (e: Event) => e.id.from == b);
    } else {
      FilterNone(more, (e: Event) => e.id.from == b);
    }
  }

  lemma TurnDone(chain: Chain, floors: map<Addr, nat>, r0: Members, r: Members, sent: seq<Event>, cur: nat, end: nat,
                 todo: set<Addr>, a: Addr, next: Rec, more: seq<Event>)
    requires r.Keys == r0.Keys && r.Keys <= floors.Keys && a in todo && todo <= r.Keys
    requires AllRecovered(chain, floors, r0, r, sent, cur, todo)
    requires AllRecovered(chain, floors, r0, r, sent, end + 1, r.Keys - todo)
    requires forall e | e in more :: e.id.from == a
    requires Recovered(chain, a, floors[a], r0[a], next, From(sent, a) + more, Pos(end + 1, r0[a]))
    ensures AllRecovered(chain, floors, r0, r[a := next], sent + more, cur, todo - {a})
    ensures AllRecovered(chain, floors, r0, r[a := next], sent + more, end + 1, r.Keys - (todo - {a}))
  {
    forall b | b in todo - {a}
      ensures Recovered(chain, b, floors[b], r0[b], r[a := next][b], From(sent + more, b), Pos(cur, r0[b]))
    {
      OfTurn(sent, more, a, b);
      IsRecovered(chain, floors, r0, r, sent, cur, todo, b);
    }
    forall b | b in r.Keys - (todo - {a})
      ensures Recovered(chain, b, floors[b], r0[b], r[a := next][b], From(sent + more, b), Pos(end + 1, r0[b]))
    {
      OfTurn(sent, more, a, b);
      if b != a {
        IsRecovered(chain, floors, r0, r, sent, end + 1, r.Keys - todo, b);
      }
    }
  }

  /** One chunk of childReconcileTick, members in any order. */
  method Chunk(chain: Chain, floors: map<Addr, nat>, ghost r0: Members, r: Members, sent: seq<Event>, cur: nat,
               end: nat)
    returns (r': Members, sent': seq<Event>)
    requires WellFormed(chain) && cur <= end && r.Keys == r0.Keys && r.Keys <= floors.Keys
    requires AllRecovered(chain, floors, r0, r, sent, cur, r0.Keys)
    ensures r'.Keys == r0.Keys && AllRecovered(chain, floors, r0, r', sent', end + 1, r0.Keys)
  {
    var todo := r.Keys;
    r', sent' := r, sent;
    while todo != {}
      invariant todo <= r.Keys && r'.Keys == r.Keys
      invariant AllRecovered(chain, floors, r0, r', sent', cur, todo)
      invariant AllRecovered(chain, floors, r0, r', sent', end + 1, r.Keys - todo)
      decreases todo
    {
      var a :| a in todo;
      IsRecovered(chain, floors, r0, r', sent', cur, todo, a);
      var next, more := MemberTurn(chain, a, floors[a], r0[a], r'[a], From(sent', a), cur, end);
      TurnDone(chain, floors, r0, r', sent', cur, end, todo, a, next, more);
      r', sent', todo := r'[a := next], sent' + more, todo - {a};
    }
  }

  method NextChunk(chain: Chain, floors: map<Addr, nat>, ghost r0: Members, r: Members, sent: seq<Event>, cur: nat,
                   blocksPerQuery: nat, to: nat)
    returns (r': Members, sent': seq<Event>, next: nat)
    requires WellFormed(chain) && cur <= to && blocksPerQuery > 0 && r.Keys == r0.Keys && r0.Keys <= floors.Keys
    requires AllRecovered(chain, floors, r0, r, sent, cur, r0.Keys)
    ensures cur < next <= to + 1 && r'.Keys == r0.Keys
    ensures AllRecovered(chain, floors, r0, r', sent', next, r0.Keys)
  {
    var end := if cur + blocksPerQuery - 1 <= to then cur + blocksPerQuery - 1 else to;
    r', sent' := Chunk(chain, floors, r0, r, sent, cur, end);
    next := end + 1;
  }

  /** childReconcileTick over the members that are behind `to`. */
  method CollectiveTick(chain: Chain, floors: map<Addr, nat>, members: Members, blocksPerQuery: nat, to: nat)
    returns (r: Members, sent: seq<Event>)
    requires WellFormed(chain) && blocksPerQuery > 0 && members.Keys <= floors.Keys
    requires forall a | a in members :: members[a].last < to
    ensures r.Keys == members.Keys
    ensures AllRecovered(chain, floors, members, r, sent, to + 1, members.Keys)
  {
    r, sent := members, [];
    var cur := Earliest(members, to);
    NobodyYet(chain, floors, members, cur);
    while cur <= to
      invariant cur <= to + 1 && r.Keys == members.Keys
      invariant AllRecovered(chain, floors, members, r, sent, cur, members.Keys)
    {
      r, sent, cur := NextChunk(chain, floors, members, r, sent, cur, blocksPerQuery, to);
    }
  }

  lemma NobodyYet(chain: Chain, floors: map<Addr, nat>, members: Members, cur: nat)
    requires members.Keys <= floors.Keys && forall a | a in members :: cur <= members[a].last + 1
    ensures AllRecovered(chain, floors, members, members, [], cur, members.Keys)
  {
    forall a | a in members
      ensures Recovered(chain, a, floors[a], members[a], members[a], From([], a), Pos(cur, members[a]))
    {
      NothingRecovered(chain, a, floors[a], members[a]);
    }
  }

  method Earliest(members: Members, to: nat) returns (from: nat)
    ensures from <= to + 1 && forall a | a in members :: from <= members[a].last + 1
    ensures from == to + 1 || exists a | a in members :: from == members[a].last + 1
  {
    from := to + 1;
    var todo := members.Keys;
    while todo != {}
      invariant todo <= members.Keys && from <= to + 1
      invariant forall a | a in members.Keys - todo :: from <= members[a].last + 1
      invariant from == to + 1 || exists a | a in members :: from == members[a].last + 1
      decreases todo
    {
      var a :| a in todo;
      todo := todo - {a};
      if members[a].last + 1 < from {
        from := members[a].last + 1;
      }
    }
  }

  /** One collective tick gives each member the same events in the same order, and the
      same final `last`, as a tick of its own; both deliver exactly what is recoverable. */
  method CollectiveRefinesIndividual(chain: Chain, floors: map<Addr, nat>, members: Members, blocksPerQuery: nat,
                                     to: nat, a: Addr)
    returns (together: Members, sentTogether: seq<Event>, alone: Rec, sentAlone: seq<Event>)
    requires WellFormed(chain) && blocksPerQuery > 0 && members.Keys <= floors.Keys
    requires forall m | m in members :: members[m].last < to
    requires a in members
    ensures a in together && together[a].last == alone.last == to
    ensures From(sentTogether, a) == sentAlone == Recoverable(chain, a, floors[a], members[a], to)
  {
    together, sentTogether := CollectiveTick(chain, floors, members, blocksPerQuery, to);
    IsRecovered(chain, floors, members, together, sentTogether, to + 1, members.Keys, a);
    alone, sentAlone := IndividualTick(chain, a, floors[a], members[a], blocksPerQuery, to);
  }
}
