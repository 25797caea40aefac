/** The delivery side of one stream's session: the live path, the reconcile tick
    with its chunked and split range reads, and everything that can happen
    between any two of the tick's critical sections.

    The environment is nondeterministic: `Interleave` runs any number of live
    events, reorg rollbacks, registrations and removals, and every RPC may fail.
    One class serves both transports, as the source's reconcileScope does:
    `keyed` is a firehose-keys stream (routed by membership and join points,
    guarded by per-address cursors), otherwise a per-contract stream. */
module Delivery {
  import opened Events
  import opened Reconcile
  import Recovery

  const CATCHUP_THRESHOLD: nat := 50

  function Min(a: nat, b: nat): nat {
    if a <= b then a else b
  }

  function Max(a: nat, b: nat): nat {
    if a >= b then a else b
  }

  /** Blocks lo, ..., hi - 1. */
  function Blocks(lo: nat, hi: nat): (blocks: set<nat>)
    ensures forall b :: b in blocks <==> lo <= b < hi
  {
    if lo < hi then Blocks(lo, hi - 1) + {hi - 1} else {}
  }

  datatype Hand = Empty | Observed(e: Event) | Passed(e: Event)

  /** What left the subscriber: `sent` to the engine, `dropped` by the cursor guard
      after having been observed, and the event the live path is holding. */
  datatype Log = Log(sent: seq<Event>, dropped: seq<Event>, hand: Hand) {
    ghost function Settled(e: Event): nat {
      Count(sent, e) + Count(dropped, e)
    }

    ghost function Handed(e: Event): nat {
      Settled(e) + if !hand.Empty? && hand.e == e then 1 else 0
    }
  }

  /** What the cursor guard of a firehose-keys stream can throw away although it was not
      yet sent as often as emitted: events observed below their address's cursor, and
      held events past which another step moved that cursor. */
  datatype Behind = Behind(late: set<Event>, overtaken: set<Event>)

  function CursorOf(cursors: map<Addr, nat>, a: Addr): nat {
    if a in cursors then cursors[a] else 0
  }

  predicate Below(cursors: map<Addr, nat>, e: Event) {
    e.block < CursorOf(cursors, e.id.from)
  }

  predicate SentWhole(chain: Chain, log: Log, e: Event) {
    Emitted(chain, e) <= Count(log.sent, e)
  }

  ghost predicate Excused(chain: Chain, log: Log, behind: Behind, e: Event) {
    e in behind.late || e in behind.overtaken || SentWhole(chain, log, e)
  }

  /** The guard throws away nothing else. */
  ghost predicate Guarded(chain: Chain, log: Log, cursors: map<Addr, nat>, behind: Behind) {
    && (forall e | e in log.dropped :: Excused(chain, log, behind, e))
    && (log.hand.Observed? && Below(cursors, log.hand.e) ==> Excused(chain, log, behind, log.hand.e))
  }

  ghost function ObservedLate(chain: Chain, log: Log, cursors: map<Addr, nat>, behind: Behind, e: Event): Behind {
    if Below(cursors, e) && !SentWhole(chain, log, e) then behind.(late := behind.late + {e}) else behind
  }

  ghost function Overtaken(chain: Chain, log: Log, before: map<Addr, nat>, cursors: map<Addr, nat>,
                           behind: Behind): Behind {
    if log.hand.Observed? && !Below(before, log.hand.e) && Below(cursors, log.hand.e) &&
        !SentWhole(chain, log, log.hand.e)
    then behind.(overtaken := behind.overtaken + {log.hand.e}) else behind
  }

  lemma ObservingIsGuarded(chain: Chain, log: Log, cursors: map<Addr, nat>, behind: Behind, e: Event)
    requires Guarded(chain, log, cursors, behind)
    ensures Guarded(chain, log.(hand := Observed(e)), cursors, ObservedLate(chain, log, cursors, behind, e))
  {
    var later, noted := log.(hand := Observed(e)), ObservedLate(chain, log, cursors, behind, e);
    forall x | x in later.dropped ensures Excused(chain, later, noted, x) {
      assert Excused(chain, log, behind, x);
    }
  }

  lemma MovingIsGuarded(chain: Chain, log: Log, before: map<Addr, nat>, cursors: map<Addr, nat>, behind: Behind)
    requires Guarded(chain, log, before, behind)
    ensures Guarded(chain, log, cursors, Overtaken(chain, log, before, cursors, behind))
  {
    var noted := Overtaken(chain, log, before, cursors, behind);
    forall x | x in log.dropped ensures Excused(chain, log, noted, x) {
      assert Excused(chain, log, behind, x);
    }
  }

  lemma SendingIsGuarded(chain: Chain, log: Log, later: Log, cursors: map<Addr, nat>, behind: Behind)
    requires Guarded(chain, log, cursors, behind)
    requires later.dropped == log.dropped && (later.hand == log.hand || !later.hand.Observed?)
    requires forall x :: Count(log.sent, x) <= Count(later.sent, x)
    ensures Guarded(chain, later, cursors, behind)
  {
    forall x | Excused(chain, log, behind, x) ensures Excused(chain, later, behind, x) {
      assert Count(log.sent, x) <= Count(later.sent, x);
    }
  }

  lemma DroppingIsGuarded(chain: Chain, log: Log, cursors: map<Addr, nat>, behind: Behind)
    requires Guarded(chain, log, cursors, behind) && log.hand.Observed? && Below(cursors, log.hand.e)
    ensures Guarded(chain, HandDropped(log), cursors, behind)
  {
    forall x | x in HandDropped(log).dropped ensures Excused(chain, HandDropped(log), behind, x) {
      assert Excused(chain, log, behind, x);
    }
  }

  /** Where the guard had nothing to throw away, what is settled was sent. */
  lemma SettledIsSent(chain: Chain, log: Log, cursors: map<Addr, nat>, behind: Behind, e: Event)
    requires Guarded(chain, log, cursors, behind) && e !in behind.late && e !in behind.overtaken
    requires Emitted(chain, e) <= log.Settled(e)
    ensures SentWhole(chain, log, e)
  {
    CountPositive(log.dropped, e);
  }

  /** What the guard costs: with the other counted occurrences of the held event sent, a
      later tick that fetches the event's block leaves it short if and only if the event
      is below its cursor now and was counted, but not sent, once too little. */
  lemma GuardLosesIff(log: Log, seen: Seen, cursors: map<Addr, nat>, fetch: seq<Event>)
    requires log.hand.Observed? && log.hand.e !in log.dropped && Times(seen, log.hand.e) <= log.Handed(log.hand.e)
    ensures var e := log.hand.e;
            var after := if Below(cursors, e) then HandDropped(log) else HandSent(log.(hand := Passed(e)));
            Count(after.sent, e) + Count(Missing(fetch, seen), e) < Count(fetch, e) <==>
              Below(cursors, e) && Count(log.sent, e) < Count(fetch, e) && Count(log.sent, e) < Times(seen, e)
  {
    var e := log.hand.e;
    Recovery.MissingCount(fetch, seen, e);
    CountPositive(log.dropped, e);
    assert (log.sent + [e])[..|log.sent|] == log.sent;
  }

  function HandSent(l: Log): Log
    requires l.hand.Passed?
  {
    Log(l.sent + [l.hand.e], l.dropped, Empty)
  }

  function HandDropped(l: Log): Log
    requires l.hand.Observed?
  {
    Log(l.sent, l.dropped + [l.hand.e], Empty)
  }

  function AlsoSent(l: Log, e: Event): Log {
    l.(sent := l.sent + [e])
  }

  lemma LogSteps(l: Log, e: Event)
    ensures forall x :: AlsoSent(l, e).Handed(x) == l.Handed(x) + (if x == e then 1 else 0)
    ensures forall x :: AlsoSent(l, e).Settled(x) == l.Settled(x) + (if x == e then 1 else 0)
    ensures Grows(l, AlsoSent(l, e))
    ensures forall x :: Count(l.sent, x) <= Count(AlsoSent(l, e).sent, x)
    ensures l.hand.Passed? ==> Grows(l, HandSent(l)) && forall x :: Count(l.sent, x) <= Count(HandSent(l).sent, x)
    ensures l.hand.Observed? ==> Grows(l, HandDropped(l))
  {
    assert forall s: seq<Event>, x: Event {:trigger s + [x]} :: (s + [x])[..|s|] == s;
  }

  ghost predicate Grows(old_: Log, new_: Log) {
    forall e :: old_.Handed(e) <= new_.Handed(e) && old_.Settled(e) <= new_.Settled(e)
  }

  /** The reconciler counted no event that was not sent, dropped or held; `owed` was sent but not yet marked. */
  ghost predicate BackedBy(seen: Seen, owed: seq<Event>, log: Log) {
    forall e :: Times(seen, e) + Count(owed, e) <= log.Handed(e)
  }

  lemma BackingLasts(seen: Seen, owed: seq<Event>, l0: Log, l1: Log)
    requires BackedBy(seen, owed, l0) && Grows(l0, l1)
    ensures BackedBy(seen, owed, l1)
  {
    forall e ensures Times(seen, e) + Count(owed, e) <= l1.Handed(e) {
      assert l0.Handed(e) <= l1.Handed(e);
    }
  }

  lemma ObservedIsBacked(r: Rec, owed: seq<Event>, log: Log, e: Event)
    requires BackedBy(r.seen, owed, log) && log.hand.Empty?
    ensures BackedBy(r.Observe(e).seen, owed, log.(hand := Observed(e))) && Grows(log, log.(hand := Observed(e)))
  {
    forall x ensures Times(r.Observe(e).seen, x) + Count(owed, x) <= log.(hand := Observed(e)).Handed(x) {
      Recovery.AddTimes(r, e, x);
    }
  }

  /** Membership and join points of a firehose-keys stream. */
  datatype Routes = Routes(tracked: set<Addr>, floors: map<Addr, nat>) {
    function Floor(a: Addr): nat {
      if a in floors then floors[a] else 0
    }

    predicate Keeps(e: Event) {
      e.id.from in tracked && Floor(e.id.from) <= e.block
    }
  }

  /** Join points are final and nobody re-joins (one registration per address and run). */
  ghost predicate RoutesEvolve(r0: Routes, r1: Routes) {
    forall a | a in r0.floors ::
      a in r1.floors && r1.floors[a] == r0.floors[a] && (a in r1.tracked ==> a in r0.tracked)
  }

  /** A stream's membership: routes, cursors, gap-fill set, and how many registrations are still to come. */
  datatype Roll = Roll(routes: Routes, cursors: map<Addr, nat>, fills: set<Addr>, arrivals: nat) {
    /** setFill and the forced setCursor of seedKeysStreamFill. */
    function Seeded(a: Addr, from: nat): Roll
      requires arrivals > 0
    {
      Roll(routes.(floors := routes.floors[a := from]), cursors[a := from], fills + {a}, arrivals - 1)
    }

    ghost predicate Consistent() {
      fills <= routes.floors.Keys <= cursors.Keys
    }
  }

  ghost predicate Arrives(r0: Roll, r1: Roll, resumeFloor: nat) {
    && RoutesEvolve(r0.routes, r1.routes)
    && (forall a | a in r0.routes.floors && a in r0.cursors :: a in r1.cursors && r1.cursors[a] == r0.cursors[a])
    && (forall a | a in r1.fills :: a in r0.fills || (a !in r0.routes.floors && a in r1.cursors && a in r1.routes.floors
                                                      && r1.cursors[a] == r1.routes.floors[a] >= resumeFloor))
    && |r1.fills| + r1.arrivals <= |r0.fills| + r0.arrivals
    && r1.arrivals <= r0.arrivals
    && (r1.arrivals == r0.arrivals ==> r1.fills <= r0.fills)
  }

  lemma SeedArrives(r: Roll, a: Addr, from: nat, resumeFloor: nat)
    requires a !in r.routes.floors && r.arrivals > 0 && r.Consistent() && from >= resumeFloor
    ensures Arrives(r, r.Seeded(a, from), resumeFloor) && r.Seeded(a, from).Consistent()
  {
    assert |r.fills + {a}| == |r.fills| + 1;
  }

  function Kept(es: seq<Event>, keyed: bool, routes: Routes): seq<Event> {
    Filter(es, (e: Event) => !keyed || routes.Keeps(e))
  }

  /** What a session answers for: all of a contract's events, or those of its base's
      addresses that are still tracked, from the block `base` gives on. */
  datatype Scope = ScopeOf(chain: Chain, keyed: bool, base: map<Addr, nat>, routes: Routes) {
    ghost predicate Claims(e: Event) {
      !keyed || (e.id.from in base && base[e.id.from] <= e.block && routes.Keeps(e))
    }

    ghost predicate Covered(log: Log, lo: nat, hi: nat) {
      forall e: Event | lo <= e.block < hi && Claims(e) :: Emitted(chain, e) <= log.Handed(e)
    }
  }

  /** What a session answers for only grows, by addresses that just joined, from `ahead` on. */
  ghost predicate BaseGrows(before: map<Addr, nat>, floors: map<Addr, nat>, after: map<Addr, nat>, ahead: nat) {
    && (forall a | a in before :: a in after && after[a] == before[a])
    && (forall a | a in after && a !in before :: a !in floors && after[a] >= ahead)
  }

  /** Coverage outlasts whatever else a session does. */
  lemma CoverageLasts(s: Scope, after: Scope, log: Log, later: Log, lo: nat, hi: nat)
    requires s.base.Keys <= s.routes.floors.Keys && after.chain == s.chain && after.keyed == s.keyed
    requires RoutesEvolve(s.routes, after.routes) && BaseGrows(s.base, s.routes.floors, after.base, hi) &&
             Grows(log, later)
    ensures s.Covered(log, lo, hi) ==> after.Covered(later, lo, hi)
  {
    if s.Covered(log, lo, hi) {
      forall e: Event | lo <= e.block < hi && after.Claims(e)
        ensures Emitted(s.chain, e) <= later.Handed(e)
      {
        assert s.Claims(e);
        assert log.Handed(e) <= later.Handed(e);
      }
    }
  }

  lemma FetchCovers(s: Scope, after: Scope, later: Log, f: nat, t: nat)
    requires WellFormed(s.chain) && after.chain == s.chain && after.keyed == s.keyed
    requires s.base.Keys <= s.routes.floors.Keys
    requires RoutesEvolve(s.routes, after.routes) && BaseGrows(s.base, s.routes.floors, after.base, t + 1)
    requires forall e :: Count(Kept(Range(s.chain, f, t + 1), s.keyed, s.routes), e) <= later.Handed(e)
    ensures after.Covered(later, f, t + 1)
  {
    forall e: Event | f <= e.block <= t && after.Claims(e)
      ensures Emitted(s.chain, e) <= later.Handed(e)
    {
      FilterCount(Range(s.chain, f, t + 1), (x: Event) => !s.keyed || s.routes.Keeps(x), e);
      RangeCounts(s.chain, f, t + 1, e);
    }
  }

  /** wssFrom: just past the tip, not before the start block, not below the resume
      floor. An unreadable tip reads as tipPlusOne == 0. */
  function SeedBlock(startBlock: nat, tipPlusOne: nat, resumeFloor: nat): (from: nat)
    ensures from >= startBlock && from >= tipPlusOne && from >= resumeFloor
    ensures from in {startBlock, tipPlusOne, resumeFloor}
  {
    var from := if tipPlusOne > startBlock then tipPlusOne else startBlock;
    if resumeFloor > from then resumeFloor else from
  }

  ghost predicate OneSent(before: Log, e: Event, after: Log) {
    forall x :: before.Settled(x) + (if x == e then 1 else 0) <= after.Settled(x)
  }

  ghost predicate SentSoFar(start: Log, es: seq<Event>, log: Log) {
    forall x :: start.Settled(x) + Count(es, x) <= log.Settled(x)
  }

  lemma OneMoreSent(start: Log, before: Log, after: Log, events: seq<Event>, i: nat)
    requires i < |events| && SentSoFar(start, events[..i], before) && OneSent(before, events[i], after)
    ensures SentSoFar(start, events[..i + 1], after)
  {
    assert events[..i + 1][..i] == events[..i];
  }

  ghost predicate HandedSoFar(start: Log, es: seq<Event>, log: Log) {
    forall x :: start.Handed(x) + Count(es, x) <= log.Handed(x)
  }

  lemma OneMoreHanded(start: Log, before: Log, after: Log, es: seq<Event>, i: nat)
    requires i < |es| && HandedSoFar(start, es[..i], before)
    requires Grows(before, after) && before.Handed(es[i]) + 1 <= after.Handed(es[i])
    ensures HandedSoFar(start, es[..i + 1], after)
  {
    assert es[..i + 1][..i] == es[..i];
  }

  /** Delivering what is missing covers the fetch: seen occurrences were handed on before. */
  lemma MissingCovers(kept: seq<Event>, seen: Seen, start: Log, log: Log)
    requires forall e :: Times(seen, e) <= start.Handed(e)
    requires HandedSoFar(start, Missing(kept, seen), log)
    ensures forall e :: Count(kept, e) <= log.Handed(e)
  {
    forall e ensures Count(kept, e) <= log.Handed(e) {
      Recovery.MissingCount(kept, seen, e);
      assert Times(seen, e) <= start.Handed(e);
    }
  }

  /** How one attempt at a range ended. `TooBig` is a splittable error with the context
      still alive; `Stale` is errReconcileStale; `Failed` is everything else. */
  datatype Outcome = Done | TooBig | Stale | Failed

  /** ceil(log2 n) */
  function CeilLog2(n: nat): nat
    requires n > 0
  {
    if n == 1 then 0 else 1 + CeilLog2((n + 1) / 2)
  }

  function Power2(k: nat): nat {
    if k == 0 then 1 else 2 * Power2(k - 1)
  }

  /** The exponent of the least power of two that is not below n. */
  lemma {:induction false} CeilLog2IsLeast(n: nat)
    requires n > 0
    ensures n <= Power2(CeilLog2(n))
    ensures n > 1 ==> Power2(CeilLog2(n) - 1) < n
  {
    if n > 1 {
      CeilLog2IsLeast((n + 1) / 2);
    }
  }

  class Feed {
    const chain: Chain
    const blocksPerQuery: nat
    const keyed: bool
    const ordered: bool  // the live stream delivers no unsent event below its address's cursor

    var rec: Reconciler
    var log: Log
    var routes: Routes
    var cursors: map<Addr, nat>
    var fills: set<Addr>
    var resumeFloor: nat
    ghost var base: map<Addr, nat>  // the addresses a session answers for, and from which block on
    var liveLast: nat
    var processed: nat
    var calls: nat          // range attempts made by reconcile
    ghost var tooBig: nat   // ... that ended TooBig
    ghost var lo: nat       // where this session's answer starts
    ghost var ahead: nat    // ... and where the ranges end that it has read, or has in hand
    ghost var behind: Behind // what the cursor guard may have cost
    var arrivals: nat       // registrations the environment still makes

    constructor (chain: Chain, blocksPerQuery: nat, keyed: bool, ordered: bool, arrivals: nat)
      requires WellFormed(chain) && blocksPerQuery > 0
      ensures this.chain == chain && this.blocksPerQuery == blocksPerQuery && this.keyed == keyed &&
              this.ordered == ordered
      ensures Valid() && fresh(rec) && log == Log([], [], Empty)
      ensures routes == Routes({}, map[]) && cursors == map[] && fills == {} && resumeFloor == 0
      ensures base == map[] && this.arrivals == arrivals && behind == Behind({}, {})
    {
      this.chain, this.blocksPerQuery, this.keyed, this.ordered := chain, blocksPerQuery, keyed, ordered;
      rec := new Reconciler();
      log := Log([], [], Empty);
      routes, cursors, fills, resumeFloor := Routes({}, map[]), map[], {}, 0;
      liveLast, processed, calls, tooBig := 0, 0, 0, 0;
      base, lo, ahead, behind := map[], 0, 1, Behind({}, {});
      this.arrivals := arrivals;
      new;
      assert Backed([]);
    }

    ghost predicate Backed(owed: seq<Event>)
      reads this`log, this`rec, rec`seen
    {
      BackedBy(rec.seen, owed, log)
    }

    ghost predicate Valid()
      reads this, rec
    {
      && WellFormed(chain) && blocksPerQuery > 0
      && Roll(routes, cursors, fills, arrivals).Consistent()
      && base.Keys <= routes.floors.Keys
      && (if keyed then Guarded(chain, log, cursors, behind) else log.dropped == [])
      && (ordered ==> behind.late == {})
      && Backed([])
      && rec.last < ahead
      && (rec.ready ==> Covered(lo, rec.last + 1))
    }

    ghost function Scope(): Scope
      reads this
    {
      ScopeOf(chain, keyed, base, routes)
    }

    /** Every claimed emission in blocks lo, ..., hi - 1 was handed on. */
    ghost predicate Covered(from: nat, to: nat)
      reads this
    {
      Scope().Covered(log, from, to)
    }

    /** What every step of a session keeps, with joiners answered for from `from` on. */
    twostate predicate EvolvesFrom(from: nat)
      reads this
    {
      && rec == old(rec) && lo == old(lo) && resumeFloor == old(resumeFloor)
      && Grows(old(log), log)
      && RoutesEvolve(old(routes), routes)
      && BaseGrows(old(base), old(routes).floors, base, from)
      && (forall a | a in fills :: a in old(fills) || a in base)
      && arrivals <= old(arrivals)
    }

    twostate predicate Evolves()
      reads this
    {
      EvolvesFrom(0)
    }

    /** What the live path and the rest of the program, but no tick, can do to the reconciler. */
    twostate predicate Disturbed()
      reads this, rec
    {
      && EvolvesFrom(old(ahead)) && ahead == old(ahead)
      && rec.ready == old(rec.ready)
      && old(rec.epoch) <= rec.epoch
      && rec.last <= old(rec.last)
      && (old(rec.epoch) == rec.epoch ==> rec.last == old(rec.last))
      && calls == old(calls) && tooBig == old(tooBig)
    }

    // ---- The live path (processWSSEvents, forwardStream) ----------------------

    method LiveObserve(e: Event, ghost owed: seq<Event>)
      requires Valid() && Backed(owed) && log.hand.Empty?
      requires keyed && ordered && e.id.from in routes.tracked && Below(cursors, e) ==> SentWhole(chain, log, e)
      modifies this`log, this`behind, rec
      ensures Valid() && Backed(owed) && Disturbed()
      ensures if keyed && e.id.from !in routes.tracked
              then log == old(log) && behind == old(behind) && rec.Value() == old(rec.Value())
              else && log == old(log).(hand := Observed(e)) && rec.Value() == old(rec.Value()).Observe(e)
                   && behind == if keyed then ObservedLate(chain, old(log), cursors, old(behind), e) else old(behind)
    {
      if keyed && e.id.from !in routes.tracked {
        return;
      }
      ObservedIsBacked(rec.Value(), owed, log, e);
      ObservedIsBacked(rec.Value(), [], log, e);
      rec.Observe(e);
      if keyed {
        ObservingIsGuarded(chain, log, cursors, behind, e);
        behind := ObservedLate(chain, log, cursors, behind, e);
      }
      log := log.(hand := Observed(e));
      CoverageLasts(old(Scope()), Scope(), old(log), log, lo, old(rec.last) + 1);
    }

    function Cursor(a: Addr): nat
      reads this`cursors
    {
      if a in cursors then cursors[a] else 0
    }

    /** The cursor guard of a firehose-keys stream; a per-contract stream has none. */
    method LiveGuard(ghost owed: seq<Event>)
      requires Valid() && Backed(owed) && log.hand.Observed?
      modifies this`log
      ensures Valid() && Backed(owed) && Disturbed()
      ensures var e := old(log).hand.e;
              log == if keyed && e.block < Cursor(e.id.from) then HandDropped(old(log))
                  else old(log).(hand := Passed(e))
    {
      var e := log.hand.e;
      var c := Cursor(e.id.from);
      if keyed && e.block < c {
        DroppingIsGuarded(chain, log, cursors, behind);
        log := HandDropped(log);
      } else {
        log := log.(hand := Passed(e));
      }
      CoverageLasts(old(Scope()), Scope(), old(log), log, lo, old(rec.last) + 1);
    }

    method LiveSend(ghost owed: seq<Event>)
      requires Valid() && Backed(owed) && log.hand.Passed?
      modifies this`log, this`processed, this`cursors, this`liveLast, this`behind
      ensures Valid() && Backed(owed) && Disturbed() && behind == old(behind)
      ensures log == HandSent(old(log)) && processed == old(processed) + 1
      ensures var e := old(log).hand.e;
              if keyed then liveLast == old(liveLast) && Cursor(e.id.from) == Max(old(Cursor(e.id.from)), e.block)
              else cursors == old(cursors) && liveLast == Max(old(liveLast), e.block)
    {
      var e := log.hand.e;
      HandOver(owed);
      if keyed {
        SetCursor(e.id.from, e.block);
      } else if e.block > liveLast {
        liveLast := e.block;
      }
    }

    method HandOver(ghost owed: seq<Event>)
      requires Valid() && Backed(owed) && log.hand.Passed?
      modifies this`log, this`processed
      ensures Valid() && Backed(owed) && Disturbed()
      ensures log == HandSent(old(log)) && processed == old(processed) + 1
    {
      LogSteps(log, log.hand.e);
      BackingLasts(rec.seen, owed, log, HandSent(log));
      BackingLasts(rec.seen, [], log, HandSent(log));
      if keyed {
        SendingIsGuarded(chain, log, HandSent(log), cursors, behind);
      }
      log := HandSent(log);
      processed := processed + 1;
      CoverageLasts(old(Scope()), Scope(), old(log), log, lo, old(rec.last) + 1);
    }

    method SetCursor(a: Addr, block: nat)
      modifies this`cursors, this`behind
      ensures cursors.Keys == old(cursors).Keys + {a}
      ensures Cursor(a) == Max(old(Cursor(a)), block)
      ensures forall x | x in old(cursors) && x != a :: cursors[x] == old(cursors)[x]
      ensures behind == Overtaken(chain, log, old(cursors), cursors, old(behind))
      ensures old(Guarded(chain, log, cursors, behind)) ==> Guarded(chain, log, cursors, behind)
    {
      if a !in cursors || block > cursors[a] {
        ForceCursor(a, block);
      }
    }

    method ForceCursor(a: Addr, block: nat)
      modifies this`cursors, this`behind
      ensures cursors == old(cursors)[a := block]
      ensures behind == Overtaken(chain, log, old(cursors), cursors, old(behind))
      ensures old(Guarded(chain, log, cursors, behind)) ==> Guarded(chain, log, cursors, behind)
    {
      ghost var before := cursors;
      cursors := cursors[a := block];
      if Guarded(chain, log, before, behind) {
        MovingIsGuarded(chain, log, before, cursors, behind);
      }
      behind := Overtaken(chain, log, before, cursors, behind);
    }

    method LiveRollback(start: nat, ghost owed: seq<Event>)
      requires Valid() && Backed(owed) && !keyed
      modifies this`liveLast, rec
      ensures Valid() && Backed(owed) && Disturbed()
      ensures rec.Value() == old(rec.Value()).Rollback(start) &&
              liveLast == if start < old(liveLast) then start else old(liveLast)
    {
      rec.Rollback(start);
      if start < liveLast {
        liveLast := start;
      }
      CoverageLasts(old(Scope()), Scope(), old(log), log, lo, old(rec.last) + 1);
    }

    // ---- Registrations (addContractKeysFirehose, removeContractKeysFirehose) ----

    /** What registrations and removals do to this stream. */
    twostate predicate Arrived()
      reads this
    {
      && Arrives(old(Roll(routes, cursors, fills, arrivals)), Roll(routes, cursors, fills, arrivals), resumeFloor)
      && BaseGrows(old(base), old(routes).floors, base, ahead) &&
         (forall a | a in fills :: a in old(fills) || a in base)
    }

    method Track(a: Addr)
      requires Valid() && a !in routes.floors
      modifies this`routes
      ensures Valid() && Arrived() && routes == Routes(old(routes).tracked + {a}, old(routes).floors)
    {
      routes := routes.(tracked := routes.tracked + {a});
      CoverageLasts(old(Scope()), Scope(), old(log), log, lo, old(rec.last) + 1);
    }

    /** seedFromTip's seed, run under the stream's lock: see SeedProtocol. */
    method Seed(a: Addr, startBlock: nat, tipPlusOne: nat)
      requires Valid() && a !in routes.floors && arrivals > 0
      modifies this`routes, this`base, this`cursors, this`fills, this`arrivals, this`behind
      ensures Valid() && Arrived() && (log.hand.Empty? ==> behind == old(behind))
      ensures var from := SeedBlock(startBlock, tipPlusOne, resumeFloor);
              && Roll(routes, cursors, fills, arrivals) == old(Roll(routes, cursors, fills, arrivals)).Seeded(a, from)
              && base == old(base)[a := Max(from, ahead)]
    {
      var from := SeedBlock(startBlock, tipPlusOne, resumeFloor);
      ghost var before := Roll(routes, cursors, fills, arrivals);
      SeedArrives(before, a, from, resumeFloor);
      Place(a, from);
      Join(a, from);
      assert Roll(routes, cursors, fills, arrivals) == before.Seeded(a, from);
    }

    method Place(a: Addr, from: nat)
      requires Valid()
      modifies this`cursors, this`behind
      ensures Valid() && cursors == old(cursors)[a := from] && (log.hand.Empty? ==> behind == old(behind))
    {
      ForceCursor(a, from);
    }

    /** From the end of the range in hand on, the session answers for it. */
    method Join(a: Addr, from: nat)
      requires Valid() && a !in routes.floors && a in cursors && arrivals > 0
      modifies this`routes, this`base, this`fills, this`arrivals
      ensures Valid() && fills == old(fills) + {a} && arrivals == old(arrivals) - 1
      ensures BaseGrows(old(base), old(routes).floors, base, ahead) && a in base
      ensures routes == old(routes).(floors := old(routes).floors[a := from]) &&
              base == old(base)[a := Max(from, ahead)]
    {
      fills, base := fills + {a}, base[a := Max(from, ahead)];
      routes := routes.(floors := routes.floors[a := from]);
      arrivals := arrivals - 1;
      CoverageLasts(old(Scope()), Scope(), log, log, lo, rec.last + 1);
    }

    method Leave(a: Addr)
      requires Valid()
      modifies this`routes, this`fills
      ensures Valid() && Arrived() && routes == Routes(old(routes).tracked - {a}, old(routes).floors) &&
              fills == old(fills) - {a}
    {
      routes := routes.(tracked := routes.tracked - {a});
      fills := fills - {a};
      CoverageLasts(old(Scope()), Scope(), old(log), log, lo, old(rec.last) + 1);
    }

    /** Registrations and removals while no session is open. */
    method Arrivals()
      requires Valid() && keyed
      modifies this`routes, this`base, this`cursors, this`fills, this`arrivals, this`behind
      ensures Valid() && Arrived() && (log.hand.Empty? ==> behind == old(behind))
    {
      var n: nat := *;
      while n > 0
        invariant Valid() && Arrived() && (log.hand.Empty? ==> behind == old(behind))
      {
        n := n - 1;
        Arrival();
      }
    }

    method Arrival()
      requires Valid() && keyed
      modifies this`routes, this`base, this`cursors, this`fills, this`arrivals, this`behind
      ensures Valid() && Arrived() && (log.hand.Empty? ==> behind == old(behind))
    {
      var a: Addr, b: nat, c: nat := *, *, *;
      if
      case a !in routes.floors => Track(a);
      case a !in routes.floors && arrivals > 0 => Seed(a, b, c);
      case true => Leave(a);
    }

    /** Anything the rest of the program may do between two steps of this goroutine. */
    method Interleave(ghost owed: seq<Event>)
      requires Valid() && Backed(owed)
      modifies this`log, this`routes, this`base, this`cursors, this`fills, this`arrivals, this`processed, this`liveLast,
               this`behind, rec
      ensures Valid() && Backed(owed) && Disturbed()
    {
      var n: nat := *;
      while n > 0
        invariant Valid() && Backed(owed) && Disturbed()
      {
        n := n - 1;
        OneStep(owed);
      }
    }

    method LiveStep(ghost owed: seq<Event>)
      requires Valid() && Backed(owed)
      modifies this`log, this`processed, this`cursors, this`liveLast, this`behind, rec
      ensures Valid() && Backed(owed) && Disturbed()
    {
      var e: Event := *;
      match log.hand
      case Empty =>
        if !ordered || !Below(cursors, e) || SentWhole(chain, log, e) {
          LiveObserve(e, owed);
        }
      case Observed(_) => LiveGuard(owed);
      case Passed(_) => LiveSend(owed);
    }

    method OneStep(ghost owed: seq<Event>)
      requires Valid() && Backed(owed)
      modifies this`log, this`routes, this`base, this`cursors, this`fills, this`arrivals, this`processed, this`liveLast,
               this`behind, rec
      ensures Valid() && Backed(owed) && Disturbed()
    {
      var start: nat := *;
      if
      case true => LiveStep(owed);
      case !keyed => LiveRollback(start, owed);
      case keyed => Arrival();
    }

    // ---- The reconcile tick (reconcile.go) --------------------------------------

    method DeliverMissed(kept: seq<Event>, epoch: nat) returns (r: Outcome)
      requires Valid()
      modifies this`log, this`routes, this`base, this`cursors, this`fills, this`arrivals, this`processed, this`liveLast,
               this`behind, rec
      ensures Valid() && Disturbed()
      ensures r == Done ==> rec.epoch == epoch && forall e :: Count(kept, e) <= log.Handed(e)
      ensures r != TooBig
    {
      var miss, ok := rec.MissingOf(kept, epoch);
      if !ok {
        return Stale;
      }
      ghost var start, seen := log, rec.seen;
      for i := 0 to |miss|
        invariant Valid() && Disturbed() && rec.epoch == epoch
        invariant HandedSoFar(start, miss[..i], log)
      {
        Interleave([]);
        if * {
          return Failed;  // the context ended before the send
        }
        ghost var before := log;
        DeliverOne(miss[i], epoch);
        if rec.epoch != epoch {
          return Stale;
        }
        OneMoreHanded(start, before, log, miss, i);
      }
      assert miss[..|miss|] == miss;
      MissingCovers(kept, seen, start, log);
      r := Done;
    }

    /** Send, then mark, then move the cursor: three critical sections. */
    method DeliverOne(e: Event, epoch: nat)
      requires Valid()
      modifies this`log, this`routes, this`base, this`cursors, this`fills, this`arrivals, this`processed, this`liveLast,
               this`behind, rec
      ensures Valid() && Disturbed()
      ensures old(log).Handed(e) + 1 <= log.Handed(e)
      ensures keyed && rec.epoch == epoch ==> Cursor(e.id.from) >= e.block
    {
      SendRecovered(e);
      Interleave([e]);
      var ok := MarkRecovered(e, epoch);
      if ok && keyed {
        Reach(e);
      }
    }

    method Reach(e: Event)
      requires Valid()
      modifies this`cursors, this`behind
      ensures Valid() && Disturbed() && Cursor(e.id.from) >= e.block
    {
      SetCursor(e.id.from, e.block);
    }

    method SendRecovered(e: Event)
      requires Valid()
      modifies this`log
      ensures Valid() && Backed([e]) && Disturbed()
      ensures log == AlsoSent(old(log), e) && log.Handed(e) == old(log).Handed(e) + 1
    {
      LogSteps(log, e);
      if keyed {
        SendingIsGuarded(chain, log, AlsoSent(log, e), cursors, behind);
      }
      log := AlsoSent(log, e);
      CoverageLasts(old(Scope()), Scope(), old(log), log, lo, old(rec.last) + 1);
    }

    method MarkRecovered(e: Event, epoch: nat) returns (ok: bool)
      requires Valid() && Backed([e])
      modifies rec
      ensures Valid() && Disturbed() && ok == (rec.epoch == epoch)
      ensures rec.Value() == if ok then old(rec.Value()).Add(e) else old(rec.Value())
    {
      ghost var r := rec.Value();
      forall x ensures Times(r.Add(e).seen, x) <= Times(r.seen, x) + (if e == x then 1 else 0) {
        Recovery.AddTimes(r, e, x);
      }
      ok := rec.Mark(e, epoch);
    }

    /** The closure reconcileRange hands to splitRetry: fetch, deliver what is missing, advance. */
    method Handle(f: nat, t: nat, epoch: nat) returns (r: Outcome)
      requires Valid() && rec.ready && f <= t
      requires epoch <= rec.epoch && (rec.epoch == epoch ==> rec.last + 1 == f)
      modifies this, rec
      ensures Valid() && Evolves() && rec.ready && old(rec.epoch) <= rec.epoch
      ensures calls == old(calls) + 1 && tooBig == old(tooBig) + (if r == TooBig then 1 else 0)
      ensures r == Done ==> rec.epoch == epoch && rec.last == t
      ensures r != Done && rec.epoch == epoch ==> rec.last == old(rec.last)
      ensures ahead == rec.last + 1 || ahead == old(ahead)
    {
      calls := calls + 1;
      Interleave([]);
      if * {
        if * {
          tooBig := tooBig + 1;
          return TooBig;
        }
        return Failed;
      }
      r := FetchAndAdvance(f, t, epoch);
    }

    method FetchAndAdvance(f: nat, t: nat, epoch: nat) returns (r: Outcome)
      requires Valid() && rec.ready && f <= t
      requires epoch <= rec.epoch && (rec.epoch == epoch ==> rec.last + 1 == f)
      modifies this`log, this`routes, this`base, this`ahead, this`cursors, this`fills, this`arrivals, this`processed,
               this`liveLast, this`behind, rec
      ensures Valid() && Evolves() && rec.ready && old(rec.epoch) <= rec.epoch
      ensures r != TooBig && calls == old(calls) && tooBig == old(tooBig)
      ensures r == Done ==> rec.epoch == epoch && rec.last == t
      ensures r != Done && rec.epoch == epoch ==> rec.last == old(rec.last)
      ensures ahead == rec.last + 1
    {
      r := FetchAndDeliver(f, t, epoch);
      if r == Done {
        r := Advance(f, t, epoch);
      }
      ahead := rec.last + 1;
    }

    method FetchAndDeliver(f: nat, t: nat, epoch: nat) returns (r: Outcome)
      requires Valid() && f <= t
      modifies this`log, this`routes, this`base, this`ahead, this`cursors, this`fills, this`arrivals, this`processed,
               this`liveLast, this`behind, rec
      ensures Valid() && Evolves() && ahead == Max(t + 1, old(rec.last) + 1) && r != TooBig
      ensures rec.ready == old(rec.ready) && old(rec.epoch) <= rec.epoch && rec.last <= old(rec.last)
      ensures old(rec.epoch) == rec.epoch ==> rec.last == old(rec.last)
      ensures calls == old(calls) && tooBig == old(tooBig)
      ensures r == Done ==> Covered(f, t + 1)
    {
      var events := Range(chain, f, t + 1);
      var kept := Kept(events, keyed, routes);
      ahead := Max(t + 1, rec.last + 1);
      r := DeliverMissed(kept, epoch);
      if r == Done {
        FetchCovers(old(Scope()), Scope(), log, f, t);
      }
    }

    method Advance(f: nat, t: nat, epoch: nat) returns (r: Outcome)
      requires Valid() && rec.ready && f <= t < ahead && Covered(f, t + 1)
      requires epoch <= rec.epoch && (rec.epoch == epoch ==> rec.last + 1 == f)
      modifies this`log, this`routes, this`base, this`cursors, this`fills, this`arrivals, this`processed, this`liveLast,
               this`behind, rec
      ensures Valid() && Evolves() && rec.ready && old(rec.epoch) <= rec.epoch
      ensures r == (if rec.epoch == epoch then Done else Stale)
      ensures r == Done ==> rec.last == t
      ensures calls == old(calls) && tooBig == old(tooBig)
    {
      Interleave([]);
      CoverageLasts(old(Scope()), Scope(), old(log), log, f, t + 1);
      var ok := rec.Advance(t, epoch);
      r := if ok then Done else Stale;
    }

    /** splitRetry: on success exactly [from, to] was handled in ascending order, on any
        error `last` is the end of a handled prefix; at most 2n - 1 calls, and exactly
        ceil(log2 n) + 1 when every call finds its range too big. */
    method SplitRetry(from: nat, to: nat, epoch: nat) returns (r: Outcome)
      requires Valid() && rec.ready && from <= to
      requires epoch <= rec.epoch && (rec.epoch == epoch ==> rec.last + 1 == from)
      modifies this, rec
      ensures Valid() && Evolves() && rec.ready && old(rec.epoch) <= rec.epoch
      ensures r == Done ==> rec.epoch == epoch && rec.last == to
      ensures r != Done && rec.epoch == epoch ==> from <= rec.last + 1 <= to
      ensures 1 <= calls - old(calls) <= 2 * (to - from + 1) - 1
      ensures tooBig - old(tooBig) <= calls - old(calls)
      ensures r == Done ==> tooBig - old(tooBig) < calls - old(calls)
      ensures tooBig - old(tooBig) == calls - old(calls) ==> calls - old(calls) == CeilLog2(to - from + 1) + 1
      decreases (to as int) - from
    {
      r := Handle(from, to, epoch);
      if r != TooBig || from >= to {
        return;
      }
      var mid := from + (to - from) / 2;
      assert mid - from + 1 == (to - from + 1 + 1) / 2;
      r := SplitRetry(from, mid, epoch);
      if r != Done {
        return;
      }
      r := SplitRetry(mid + 1, to, epoch);
    }

    /** reconcileRange: `last` moves only over fully handled ranges. */
    method ReconcileRange(from: nat, to: nat, epoch: nat) returns (r: Outcome)
      requires Valid() && rec.ready && from <= to
      requires epoch <= rec.epoch && (rec.epoch == epoch ==> rec.last + 1 == from)
      modifies this, rec
      ensures Valid() && Evolves() && rec.ready && old(rec.epoch) <= rec.epoch
      ensures r == Done ==> rec.epoch == epoch && rec.last == to
      ensures r != Done && rec.epoch == epoch ==> from <= rec.last + 1 <= to
      ensures calls - old(calls) <= 2 * (to - from + 1)
    {
      var cur := from;
      while cur <= to
        invariant Valid() && Evolves() && rec.ready && old(rec.epoch) <= rec.epoch
        invariant from <= cur <= to + 1
        invariant cur > from ==> rec.epoch == epoch
        invariant rec.epoch == epoch ==> rec.last + 1 == cur
        invariant calls - old(calls) <= 2 * (cur - from)
      {
        var end := if cur + blocksPerQuery - 1 <= to then cur + blocksPerQuery - 1 else to;
        r := SplitRetry(cur, end, epoch);
        if r != Done {
          return;
        }
        cur := end + 1;
      }
      r := Done;
    }

    /** reconcileTick, for any tip the node reports. */
    method ReconcileTick(lag: nat) returns (r: Outcome, tip: nat)
      requires Valid() && rec.ready
      modifies this, rec
      ensures Valid() && Evolves() && rec.ready
      ensures r == Done ==> tip <= rec.last + lag
    {
      Interleave([]);
      var failed: bool;
      failed, tip := *, *;
      if failed {
        return Failed, 0;
      }
      var to := if tip < lag then 0 else tip - lag;
      var last, epoch := rec.Snapshot();
      if to <= last {
        return Done, tip;
      }
      r := ReconcileRange(last + 1, to, epoch);
    }

    // ---- Session boundaries -------------------------------------------------------

    /** A fresh reconciler, answering for blocks from `from` on; the backfill ends before `end`. */
    method NewSession(ghost from: nat, ghost addrs: map<Addr, nat>, ghost end: nat)
      requires Valid() && log.hand.Empty? && addrs.Keys <= routes.floors.Keys && end > 0
      modifies this`rec, this`lo, this`ahead, this`base
      ensures Valid() && fresh(rec) && rec.Value() == FRESH && lo == from && base == addrs && ahead == end
    {
      rec := new Reconciler();
      lo, base, ahead := from, addrs, end;
    }

    /** The hand-off: reconcile covers what follows the post-subscribe backfill. */
    method StartReconcile(at: nat)
      requires Valid() && !rec.ready && at < ahead && Covered(lo, at + 1)
      modifies rec
      ensures Valid() && rec.Value() == old(rec.Value()).Start(at) && rec.last <= at
    {
      rec.Start(at);
    }

    /** The live loop leaves its select only once the event in hand was sent (or dropped by the guard). */
    method FinishHand()
      requires Valid()
      modifies this`log, this`processed, this`cursors, this`liveLast, this`behind
      ensures Valid() && Disturbed() && log.hand.Empty? && behind == old(behind)
    {
      if log.hand.Observed? {
        LiveGuard([]);
      }
      if log.hand.Passed? {
        LiveSend([]);
      }
    }

    /** A canceled live loop drops the event in hand; its reconciler is not used again. */
    method AbandonHand()
      requires Valid()
      modifies this`log, this`rec
      ensures Valid() && log.hand.Empty? && fresh(rec) && rec.Value() == FRESH
      ensures log.sent == old(log).sent && log.dropped == old(log).dropped
    {
      log := log.(hand := Empty);
      rec := new Reconciler();
    }

    /** One historical event to the engine (backfillFrom, pollEvents, pollUntilCaughtUp). */
    method SendHistorical(e: Event)
      requires Valid()
      modifies this`log
      ensures Valid() && Disturbed()
      ensures forall x :: log.Settled(x) == old(log).Settled(x) + (if x == e then 1 else 0)
      ensures log == AlsoSent(old(log), e)
    {
      LogSteps(log, e);
      if keyed {
        SendingIsGuarded(chain, log, AlsoSent(log, e), cursors, behind);
      }
      log := AlsoSent(log, e);
      CoverageLasts(old(Scope()), Scope(), old(log), log, lo, old(rec.last) + 1);
    }
  }
}
