/** The firehose-keys transport's stream lifecycle (firehose_keys.go,
    subscribe_backfill.go): gap-fill until the whole set is near the tip, commit a
    resume block, subscribe, backfill to the pre-confirmed block, reconcile, cap the
    cursors, repeat. No reorgs here; registrations and removals happen at any time. */
module KeysTransport {
  import opened Events
  import opened Reconcile
  import opened Delivery
  import Recovery

  const U64: nat := 0x1_0000_0000_0000_0000

  /** uint64 subtraction. */
  function SubU64(a: nat, b: nat): nat {
    (a - b) % U64
  }

  function GapFillDiverging(pass: nat, fills: nat, prevFills: nat, behind: nat, prevBehind: nat): bool {
    pass > 1 && fills <= prevFills && behind >= prevBehind
  }

  /** Every emission of `a` in blocks lo, ..., hi - 1 was sent, or discarded by the cursor
      guard, but for the skipped blocks. */
  ghost predicate AddressIn(chain: Chain, log: Log, a: Addr, lo: nat, hi: nat, skipped: set<(Addr, nat)>) {
    forall e: Event | e.id.from == a && lo <= e.block < hi && (a, e.block) !in skipped ::
        Emitted(chain, e) <= log.Settled(e)
  }

  lemma FromRangeIn(chain: Chain, a: Addr, lo: nat, f: nat, t: nat, start: Log, log: Log, skipped: set<(Addr, nat)>)
    requires WellFormed(chain) && f <= t + 1 && AddressIn(chain, start, a, lo, f, skipped)
    requires SentSoFar(start, From(Range(chain, f, t + 1), a), log)
    ensures AddressIn(chain, log, a, lo, t + 1, skipped)
  {
    forall e: Event | e.id.from == a && lo <= e.block <= t && (a, e.block) !in skipped
      ensures Emitted(chain, e) <= log.Settled(e)
    {
      FilterCount(Range(chain, f, t + 1), (x: Event) => x.id.from == a, e);
      RangeCounts(chain, f, t + 1, e);
    }
  }

  lemma OnlyTheOther(e: Event, f: Event, seen: Seen)
    requires e != f && Times(seen, e) == 1 && Times(seen, f) == 0
    ensures Missing([e, f], seen) == [f]
  {
    assert [e, f][..1] == [e] && [e][..0] == [];
    assert Count([e], f) == 0 && Missing([e], seen) == [];
    assert [] + [f] == [f];
  }

  predicate Routed(e: Event, base: map<Addr, nat>, tracked: set<Addr>) {
    e.id.from in tracked && e.id.from in base && base[e.id.from] <= e.block
  }

  /** Emissions in [lo, hi) that a session's backfill routes. */
  ghost predicate RoutedIn(chain: Chain, log: Log, base: map<Addr, nat>, tracked: set<Addr>, lo: nat, hi: nat) {
    forall e: Event | lo <= e.block < hi && Routed(e, base, tracked) :: Emitted(chain, e) <= log.Settled(e)
  }

  lemma RoutedRangeIn(chain: Chain, base: map<Addr, nat>, fetched: set<Addr>, tracked: set<Addr>, f: nat, t: nat,
                      start: Log, log: Log)
    requires WellFormed(chain)
    requires forall a | a in base && a in tracked :: a in fetched
    requires SentSoFar(start, Filter(Range(chain, f, t + 1), (x: Event) => Routed(x, base, fetched)), log)
    ensures RoutedIn(chain, log, base, tracked, f, t + 1)
  {
    forall e: Event | f <= e.block <= t && Routed(e, base, tracked) ensures Emitted(chain, e) <= log.Settled(e) {
      FilterCount(Range(chain, f, t + 1), (x: Event) => Routed(x, base, fetched), e);
      RangeCounts(chain, f, t + 1, e);
    }
  }

  lemma RoutedLasts(chain: Chain, base: map<Addr, nat>, routes: Routes, after: Routes, log: Log, later: Log, lo: nat,
                    hi: nat)
    requires RoutedIn(chain, log, base, routes.tracked, lo, hi) && base.Keys <= routes.floors.Keys
    requires RoutesEvolve(routes, after) && forall e :: log.Settled(e) <= later.Settled(e)
    ensures RoutedIn(chain, later, base, after.tracked, lo, hi)
  {
    forall e: Event | lo <= e.block < hi && Routed(e, base, after.tracked)
        ensures Emitted(chain, e) <= later.Settled(e) {
      assert Routed(e, base, routes.tracked) && log.Settled(e) <= later.Settled(e);
    }
  }

  function Capped(cursor: nat, cap: nat): nat {
    if cursor > cap then cap else cursor
  }

  datatype GapFill = Resume(block: nat) | Retry | Stopped

  /** The least cursor among `who`. */
  ghost predicate Lowest(cursors: map<Addr, nat>, who: set<Addr>, low: nat)
    requires who <= cursors.Keys
  {
    (forall a | a in who :: low <= cursors[a]) && exists a :: a in who && cursors[a] == low
  }

  lemma LowestOneMore(before: map<Addr, nat>, after: map<Addr, nat>, who: set<Addr>, a: Addr, low: nat)
    requires who <= before.Keys && Lowest(before, who, low) && a in after
    requires forall x | x in who :: x in after && after[x] == before[x]
    ensures Lowest(after, who + {a}, if low <= after[a] then low else after[a])
  {
    var x :| x in who && before[x] == low;
    assert x in who + {a} && a in who + {a};
  }

  class KeysStream {
    const feed: Feed
    const reconcileOn: bool
    const lag: nat
    ghost var since: map<Addr, nat>  // joined while a session was open: where its answer starts
    ghost var skipped: set<(Addr, nat)>  // what sessions without reconcile resumed past

    ghost predicate Valid()
      reads this, feed, feed.rec
    {
      feed.Valid() && feed.keyed && feed.log.hand.Empty? && (reconcileOn ==> skipped == {})
    }

    /** Between sessions, for every tracked fill: every block of [start, cursor) is in, but
        for the skipped ones. With reconcile on there are none. */
    ghost predicate NoGap()
      reads this, feed, feed.rec
    {
      Valid() && forall a | Answerable(a) :: In(a, feed.cursors[a])
    }

    ghost predicate Answerable(a: Addr)
      reads this, feed
    {
      a in feed.fills && a in feed.routes.tracked
    }

    /** Where the stream's answer for an address starts: its join point, or, if it joined
        while a session was open, what `since` has, if later. */
    ghost function StartOf(a: Addr): nat
      requires a in feed.routes.floors
      reads this, feed`routes
    {
      Max(feed.routes.floors[a], if a in since then since[a] else 0)
    }

    ghost predicate In(a: Addr, hi: nat)
      requires a in feed.routes.floors
      reads this, feed
    {
      AddressIn(feed.chain, feed.log, a, StartOf(a), hi, skipped)
    }

    /** What that means for what was sent: all of it was, except where the cursor guard
        threw away an event observed late or overtaken in hand. */
    ghost predicate AllSent()
      reads this, feed
    {
      forall e: Event | Answers(e) && e !in feed.behind.late && e !in feed.behind.overtaken ::
        SentWhole(feed.chain, feed.log, e)
    }

    ghost predicate Answers(e: Event)
      reads this, feed
    {
      var a := e.id.from;
      && Answerable(a) && a in feed.routes.floors && a in feed.cursors
      && StartOf(a) <= e.block < feed.cursors[a] && (a, e.block) !in skipped
    }

    lemma NoGapMeansSent()
      requires NoGap()
      ensures AllSent()
    {
      forall e: Event | Answers(e) && e !in feed.behind.late && e !in feed.behind.overtaken
        ensures SentWhole(feed.chain, feed.log, e)
      {
        assert In(e.id.from, feed.cursors[e.id.from]);
        SettledIsSent(feed.chain, feed.log, feed.cursors, feed.behind, e);
      }
    }

    /** If the live stream never delivers an unsent event below its address's cursor, only
        the events that another step overtook in hand are missing. */
    lemma OrderedMeansSent()
      requires NoGap() && feed.ordered
      ensures forall e: Event | Answers(e) && e !in feed.behind.overtaken :: SentWhole(feed.chain, feed.log, e)
    {
      NoGapMeansSent();
    }

    constructor (chain: Chain, blocksPerQuery: nat, ordered: bool, reconcileOn: bool, lag: nat, arrivals: nat)
      requires WellFormed(chain) && blocksPerQuery > 0
      ensures NoGap() && fresh(feed) && fresh(feed.rec) && this.reconcileOn == reconcileOn
    {
      feed := new Feed(chain, blocksPerQuery, true, ordered, arrivals);
      this.reconcileOn, this.lag, since, skipped := reconcileOn, lag, map[], {};
    }

    // ---- Gap-fill ------------------------------------------------------------------

    /** What the gap-fill of some fills, and registrations meanwhile, do to the stream. */
    twostate predicate Filling()
      reads this, feed, feed.rec
    {
      && feed.rec == old(feed.rec) && feed.rec.Value() == old(feed.rec.Value())
      && feed.resumeFloor == old(feed.resumeFloor) && since == old(since)
      && RoutesEvolve(old(feed.routes), feed.routes)
      && (forall e :: old(feed.log).Settled(e) <= feed.log.Settled(e))
      && (forall a | a in old(feed.routes).floors && a in old(feed.cursors) ::
            a in feed.cursors && feed.cursors[a] >= old(feed.cursors)[a])
      && (forall a | a in feed.fills :: a in old(feed.fills) || a !in old(feed.routes).floors)
      && |feed.fills| + feed.arrivals <= old(|feed.fills| + feed.arrivals)
      && feed.arrivals <= old(feed.arrivals)
      && (feed.arrivals == old(feed.arrivals) ==> feed.fills <= old(feed.fills))
    }

    /** No cursor of a seeded address moves. */
    twostate predicate Resting()
      reads this, feed
    {
      forall a | a in old(feed.routes).floors && a in old(feed.cursors) ::
          a in feed.cursors && feed.cursors[a] == old(feed.cursors)[a]
    }

    method Arrivals()
      requires NoGap()
      modifies feed`routes, feed`base, feed`cursors, feed`fills, feed`arrivals, feed`behind
      ensures NoGap() && Filling() && Resting() && feed.Arrived()
    {
      feed.Arrivals();
    }

    /** One range of one fill's catch-up; false if the context ended first. */
    method SendFill(a: Addr, f: nat, t: nat, ghost lo: nat) returns (ok: bool)
      requires NoGap() && f <= t
      modifies feed
      ensures NoGap() && Filling() && Resting()
      ensures ok && AddressIn(feed.chain, old(feed.log), a, lo, f, skipped) ==>
                AddressIn(feed.chain, feed.log, a, lo, t + 1, skipped)
    {
      var events := From(Range(feed.chain, f, t + 1), a);
      ghost var start := feed.log;
      ok := true;
      for i := 0 to |events|
        invariant NoGap() && Filling() && Resting()
        invariant SentSoFar(start, events[..i], feed.log)
      {
        ghost var before := feed.log;
        ok := SendFilled(events[i]);
        if !ok {
          return;
        }
        OneMoreSent(start, before, feed.log, events, i);
      }
      assert events[..|events|] == events;
      if AddressIn(feed.chain, start, a, lo, f, skipped) {
        FromRangeIn(feed.chain, a, lo, f, t, start, feed.log, skipped);
      }
    }

    method SendFilled(e: Event) returns (ok: bool)
      requires NoGap()
      modifies feed
      ensures NoGap() && Filling() && Resting()
      ensures ok ==> OneSent(old(feed.log), e, feed.log)
    {
      Arrivals();
      ok := *;
      if ok {
        FillEvent(e);
      }
    }

    method FillEvent(e: Event)
      requires NoGap()
      modifies feed`log
      ensures NoGap() && feed.log == AlsoSent(old(feed.log), e)
      ensures OneSent(old(feed.log), e, feed.log)
    {
      LogSteps(feed.log, e);
      feed.SendHistorical(e);
    }

    /** pollUntilCaughtUp for one fill, from its cursor; `done` is false if the context ended. */
    method PollFill(a: Addr) returns (last: nat, done: bool)
      requires NoGap() && a in feed.routes.floors && a in feed.cursors
      modifies feed
      ensures NoGap() && Filling() && Resting() && last >= old(feed.cursors)[a]
      ensures old(In(a, feed.cursors[a])) ==> In(a, last)
    {
      last := feed.cursors[a];
      ghost var lo := StartOf(a);
      ghost var wasIn := In(a, last);
      var rounds: nat := *;
      while rounds > 0
        invariant NoGap() && Filling() && Resting() && last >= old(feed.cursors)[a]
        invariant wasIn ==> AddressIn(feed.chain, feed.log, a, lo, last, skipped)
      {
        rounds := rounds - 1;
        var failed: bool, latest: nat := *, *;
        if !failed {
          if latest < CATCHUP_THRESHOLD || last + CATCHUP_THRESHOLD >= latest {
            return last, true;
          }
          var end := if last + feed.blocksPerQuery <= latest then last + feed.blocksPerQuery else latest;
          var ok := SendFill(a, last, end, lo);
          if !ok {
            return last, false;
          }
          last := end + 1;
        }
      }
      done := false;
    }

    /** keysStreamGapFillPass: every fill of the snapshot is caught up; returns the minimum
        of their cursors and the size of the snapshot. The source fans out; the fills
        touch disjoint cursors, so one after the other stands for every schedule. */
    method FillPass() returns (minLast: nat, count: nat, done: bool)
      requires NoGap()
      modifies feed
      ensures NoGap() && Filling()
      ensures count == |old(feed.fills)|
      ensures done && count > 0 ==>
                old(feed.fills) <= feed.cursors.Keys && Lowest(feed.cursors, old(feed.fills), minLast)
    {
      var todo := feed.fills;
      count, minLast, done := |todo|, 0, true;
      if count == 0 {
        minLast := *;  // the cached tip, 0 if unreadable
        return;
      }
      var first := true;
      ghost var snapshot := todo;
      while todo != {}
        invariant NoGap() && Filling() && todo <= snapshot <= feed.cursors.Keys && snapshot <= feed.routes.floors.Keys
        invariant if first then todo == snapshot else Lowest(feed.cursors, snapshot - todo, minLast)
        decreases todo
      {
        var a :| a in todo;
        minLast, done := FillNext(a, snapshot - todo, minLast, first);
        if !done {
          return;
        }
        assert snapshot - todo + {a} == snapshot - (todo - {a});
        todo, first := todo - {a}, false;
      }
      assert snapshot - todo == snapshot;
    }

    method FillNext(a: Addr, ghost filled: set<Addr>, low: nat, first: bool) returns (minLast: nat, done: bool)
      requires NoGap() && filled + {a} <= feed.routes.floors.Keys && filled + {a} <= feed.cursors.Keys
      requires if first then filled == {} else a !in filled && Lowest(feed.cursors, filled, low)
      modifies feed
      ensures NoGap() && Filling()
      ensures done ==> Lowest(feed.cursors, filled + {a}, minLast)
    {
      minLast, done := FillOne(a);
      if done && !first {
        LowestOneMore(old(feed.cursors), feed.cursors, filled, a, low);
        minLast := if low <= minLast then low else minLast;
      }
    }

    method FillOne(a: Addr) returns (last: nat, done: bool)
      requires NoGap() && a in feed.routes.floors && a in feed.cursors
      modifies feed
      ensures NoGap() && Filling()
      ensures forall x | x in old(feed.routes).floors && x in old(feed.cursors) && x != a ::
                x in feed.cursors && feed.cursors[x] == old(feed.cursors)[x]
      ensures done ==> a in feed.cursors && feed.cursors[a] == last
    {
      last, done := PollFill(a);
      if done {
        SetFilled(a, last);
      }
    }

    method SetFilled(a: Addr, last: nat)
      requires NoGap() && a in feed.routes.floors && a in feed.cursors && last >= feed.cursors[a]
      requires Answerable(a) ==> In(a, last)
      modifies feed`cursors, feed`behind
      ensures NoGap() && Filling() && feed.cursors == old(feed.cursors)[a := last]
    {
      feed.SetCursor(a, last);
    }

    /** fillBehind: if no fill is behind `block`, it becomes the resume floor. */
    method FillBehind(block: nat) returns (behind: bool)
      requires NoGap()
      modifies feed`resumeFloor
      ensures NoGap()
      ensures behind ==> feed.resumeFloor == old(feed.resumeFloor) && exists a | a in feed.fills ::
              feed.cursors[a] < block
      ensures !behind ==> feed.resumeFloor == block && forall a | a in feed.fills :: feed.cursors[a] >= block
    {
      var todo := feed.fills;
      while todo != {}
        invariant todo <= feed.fills
        invariant forall a | a in feed.fills - todo :: feed.cursors[a] >= block
        decreases todo
      {
        var a :| a in todo;
        if feed.cursors[a] < block {
          return true;
        }
        todo := todo - {a};
      }
      feed.resumeFloor := block;
      behind := false;
    }

    /** One pass, and the tip read after it. */
    method PassThenTip() returns (minLast: nat, count: nat, done: bool, failed: bool, latest: nat)
      requires NoGap()
      modifies feed
      ensures NoGap() && Filling() && count == |old(feed.fills)|
      ensures done && count > 0 && feed.arrivals == old(feed.arrivals) ==> forall a | a in feed.fills ::
              feed.cursors[a] >= minLast
    {
      minLast, count, done := FillPass();
      if done {
        Arrivals();
      }
      failed, latest := *, *;
    }

    /** keysStreamGapFill. It ends for any finite number of registrations; with none,
        after at most one pass per block of the first measured gap beyond the
        threshold, plus one. Success means no fill is behind the resume block, and
        (unless there was nothing to fill) that block is near the tip just read. */
    method GapFill() returns (r: GapFill, tip: nat, count: nat, passes: nat, ghost firstGap: nat)
      requires NoGap()
      modifies feed
      ensures NoGap() && feed.rec == old(feed.rec)
      ensures r.Resume? ==> feed.resumeFloor == r.block && forall a | a in feed.fills :: feed.cursors[a] >= r.block
      ensures r.Resume? && count > 0 ==> tip <= r.block + CATCHUP_THRESHOLD
      ensures r.Resume? && count == 0 ==> r.block <= tip
      ensures old(feed.arrivals) == 0 ==> passes <= 1 || passes + CATCHUP_THRESHOLD <= firstGap + 1
    {
      var prev: nat, prevFills: nat, pass: nat := 0, 0, 1;
      ghost var before := feed.arrivals;  // registrations to come at the last pass's snapshot
      r, tip, count, passes, firstGap := Retry, 0, 0, 0, 0;
      while true
        invariant NoGap() && feed.rec == old(feed.rec) && passes == pass - 1 && pass >= 1
        invariant feed.arrivals <= before && before <= old(feed.arrivals)
        invariant pass > 1 ==> |feed.fills| + feed.arrivals <= prevFills + before
        invariant old(feed.arrivals) == 0 && pass > 1 ==> passes + prev <= firstGap + 1 && prev > CATCHUP_THRESHOLD
        decreases if pass == 1 then 1 else 0, before + feed.arrivals, prev
      {
        ghost var budget := feed.arrivals;
        var minLast, done, failed, latest;
        minLast, count, done, failed, latest := PassThenTip();
        passes := pass;
        if !done {
          return Stopped, tip, count, passes, firstGap;
        }
        if failed {
          return;
        }
        tip := latest;
        if count == 0 {
          if minLast == 0 {
            return;
          }
          var resume := if minLast <= tip then minLast else tip;
          var late := FillBehind(resume);
          if !late {
            return Resume(resume), tip, count, passes, firstGap;
          }
          prev, prevFills := 0, 0;
        } else if minLast + CATCHUP_THRESHOLD >= tip {
          var late := FillBehind(minLast);
          if !late {
            return Resume(minLast), tip, count, passes, firstGap;
          }
          prev, prevFills := SubU64(tip, minLast), count;
        } else {
          var behind := tip - minLast;
          if GapFillDiverging(pass, count, prevFills, behind, prev) {
            return;
          }
          if pass == 1 {
            firstGap := behind;
          }
          prev, prevFills := behind, count;
        }
        before := budget;
        pass := pass + 1;
      }
    }

    // ---- The session ---------------------------------------------------------------

    /** keysStreamBackfill over [from, p], while the live path runs. */
    method Backfill(base: map<Addr, nat>, from: nat, p: nat) returns (ok: bool)
      requires feed.Valid() && feed.keyed && base.Keys <= feed.routes.floors.Keys
      modifies feed, feed.rec
      ensures feed.Valid() && feed.Disturbed()
      ensures ok ==> RoutedIn(feed.chain, feed.log, base, feed.routes.tracked, from, p + 1)
    {
      var cur := from;
      while cur <= p
        invariant feed.Valid() && feed.Disturbed() && from <= cur
        invariant RoutedIn(feed.chain, feed.log, base, feed.routes.tracked, from, cur)
      {
        var end := if cur + feed.blocksPerQuery - 1 <= p then cur + feed.blocksPerQuery - 1 else p;
        ok := BackfillRange(base, cur, end, from);
        if !ok {
          return;
        }
        cur := end + 1;
      }
      ok := true;
    }

    method BackfillRange(base: map<Addr, nat>, f: nat, t: nat, ghost from: nat) returns (ok: bool)
      requires feed.Valid() && feed.keyed && base.Keys <= feed.routes.floors.Keys && from <= f <= t
      modifies feed, feed.rec
      ensures feed.Valid() && feed.Disturbed()
      ensures ok && old(RoutedIn(feed.chain, feed.log, base, feed.routes.tracked, from, f)) ==>
                RoutedIn(feed.chain, feed.log, base, feed.routes.tracked, from, t + 1)
    {
      feed.Interleave([]);
      ok := *;
      if !ok {
        return;
      }
      var tracked := feed.routes.tracked;
      var kept := Filter(Range(feed.chain, f, t + 1), (x: Event) => Routed(x, base, tracked));
      ghost var start := feed.log;
      for i := 0 to |kept|
        invariant feed.Valid() && feed.Disturbed()
        invariant forall a | a in base && a in feed.routes.tracked :: a in tracked && a in old(feed.routes).tracked
        invariant SentSoFar(start, kept[..i], feed.log)
      {
        ghost var before := feed.log;
        ok := BackfillOne(kept[i]);
        if !ok {
          return;
        }
        OneMoreSent(start, before, feed.log, kept, i);
      }
      assert kept[..|kept|] == kept;
      RoutedRangeIn(feed.chain, base, tracked, feed.routes.tracked, f, t, start, feed.log);
    }

    method BackfillOne(e: Event) returns (ok: bool)
      requires feed.Valid() && feed.keyed
      modifies feed, feed.rec
      ensures feed.Valid() && feed.Disturbed()
      ensures ok ==> OneSent(old(feed.log), e, feed.log)
    {
      feed.Interleave([]);
      ok := *;
      if ok {
        feed.SendHistorical(e);
        feed.SetCursor(e.id.from, e.block);
      }
    }

    /** What was in for the base when the session began still is. */
    ghost predicate BaseIn(base: map<Addr, nat>)
      reads this, feed
    {
      forall a | a in base && a in feed.base :: AddressIn(feed.chain, feed.log, a, feed.base[a], base[a], skipped)
    }

    /** serveSession's backfill goroutine: wait for p, backfill, hand off, reconcile. */
    method BackfillAndReconcile(base: map<Addr, nat>, from: nat, p: nat) returns (backfilled: bool)
      requires feed.Valid() && feed.keyed && !feed.rec.ready && feed.lo == 0
      requires base.Keys <= feed.routes.floors.Keys && feed.base.Keys <= base.Keys && BaseIn(base)
      requires feed.ahead == p + 1 && forall a | a in base :: base[a] >= from
      requires reconcileOn ==> skipped == {}
      modifies feed, feed.rec
      ensures feed.Valid() && feed.Evolves()
      ensures feed.rec.ready == (backfilled && reconcileOn)
      ensures base.Keys <= feed.routes.floors.Keys && BaseIn(base)
      ensures backfilled && !reconcileOn ==> RoutedIn(feed.chain, feed.log, base, feed.routes.tracked, from, p + 1)
    {
      feed.Interleave([]);
      backfilled := *;
      if !backfilled {
        return;  // p was not accepted in time
      }
      backfilled := Backfill(base, from, p);
      if !backfilled || !reconcileOn {
        return;
      }
      HandOff(base, from, p);
      Reconciling(base);
    }

    /** What the base had, and what the backfill brought, covers everything up to p. */
    method HandOff(ghost base: map<Addr, nat>, ghost from: nat, p: nat)
      requires feed.Valid() && feed.keyed && !feed.rec.ready && feed.lo == 0 && skipped == {}
      requires base.Keys <= feed.routes.floors.Keys && BaseIn(base)
      requires RoutedIn(feed.chain, feed.log, base, feed.routes.tracked, from, p + 1)
      requires feed.ahead == p + 1 && forall a | a in base :: base[a] >= from
      requires forall a | a in feed.base :: a in base || feed.base[a] > p
      modifies feed.rec
      ensures feed.Valid() && feed.rec.ready && BaseIn(base)
    {
      BackfilledIsCovered(base, from, p);
      feed.StartReconcile(p);
    }

    lemma BackfilledIsCovered(base: map<Addr, nat>, from: nat, p: nat)
      requires feed.Valid() && feed.keyed && feed.lo == 0 && skipped == {} && BaseIn(base)
      requires RoutedIn(feed.chain, feed.log, base, feed.routes.tracked, from, p + 1)
      requires forall a | a in base :: base[a] >= from
      requires forall a | a in feed.base :: a in base || feed.base[a] > p
      ensures feed.Covered(0, p + 1)
    {
      forall e: Event | e.block <= p && feed.Scope().Claims(e) ensures Emitted(feed.chain, e) <= feed.log.Handed(e) {
        var a := e.id.from;
        assert a in base;
        if base[a] <= e.block {
          assert Routed(e, base, feed.routes.tracked);
        }
      }
    }

    /** reconcileLoop: any number of ticks. */
    method Reconciling(ghost base: map<Addr, nat>)
      requires feed.Valid() && feed.keyed && feed.rec.ready && feed.lo == 0
      requires base.Keys <= feed.routes.floors.Keys && BaseIn(base)
      modifies feed, feed.rec
      ensures feed.Valid() && feed.Evolves() && feed.rec.ready
      ensures base.Keys <= feed.routes.floors.Keys && BaseIn(base)
    {
      var ticks: nat := *;
      while ticks > 0
        invariant feed.Valid() && feed.Evolves() && feed.rec.ready
        invariant base.Keys <= feed.routes.floors.Keys && BaseIn(base)
      {
        ticks := ticks - 1;
        Ticking(base);
      }
    }

    method Ticking(ghost base: map<Addr, nat>)
      requires feed.Valid() && feed.keyed && feed.rec.ready
      requires base.Keys <= feed.routes.floors.Keys && BaseIn(base)
      modifies feed, feed.rec
      ensures feed.Valid() && feed.Evolves() && feed.rec.ready
      ensures base.Keys <= feed.routes.floors.Keys && BaseIn(base)
    {
      feed.Interleave([]);
      var r, tip := feed.ReconcileTick(lag);
    }

    /** capCursors: back to base, never forward. */
    method CapCursors(base: map<Addr, nat>)
      modifies feed`cursors
      ensures feed.cursors.Keys == old(feed.cursors).Keys
      ensures forall a | a in feed.cursors ::
                feed.cursors[a] == if a in base && old(feed.cursors)[a] > base[a] then base[a] else old(feed.cursors)[a]
    {
      var todo := base.Keys;
      while todo != {}
        invariant todo <= base.Keys && feed.cursors.Keys == old(feed.cursors).Keys
        invariant forall a | a in feed.cursors ::
                    feed.cursors[a] == if a in base && a !in todo && old(feed.cursors)[a] > base[a] then base[a]
                        else old(feed.cursors)[a]
        decreases todo
      {
        var a :| a in todo;
        todo := todo - {a};
        if a in feed.cursors && feed.cursors[a] > base[a] {
          feed.cursors := feed.cursors[a := base[a]];
        }
      }
    }

    /** capCursorsTo: every cursor back to at most `block`. */
    method CapCursorsTo(block: nat)
      modifies feed`cursors
      ensures feed.cursors.Keys == old(feed.cursors).Keys
      ensures forall a | a in feed.cursors ::
                feed.cursors[a] == if old(feed.cursors)[a] > block then block else old(feed.cursors)[a]
    {
      var todo := feed.cursors.Keys;
      while todo != {}
        invariant todo <= feed.cursors.Keys && feed.cursors.Keys == old(feed.cursors).Keys
        invariant forall a | a in feed.cursors ::
                    feed.cursors[a] == if a !in todo && old(feed.cursors)[a] > block then block
                        else old(feed.cursors)[a]
        decreases todo
      {
        var a :| a in todo;
        todo := todo - {a};
        if feed.cursors[a] > block {
          feed.cursors := feed.cursors[a := block];
        }
      }
    }

    /** The session answers for every tracked address of `base`, from where the stream does,
        and for every fill that joined since. */
    ghost predicate Based(base: map<Addr, nat>)
      reads this, feed
    {
      && (forall a | a in base && a in feed.routes.tracked ::
            a in feed.routes.floors && a in feed.base && feed.base[a] == StartOf(a))
      && (forall a | a in feed.fills :: a in base || a in feed.base)
    }

    /** Where the answer for the fills starts that joined while the session was open: at the
        cursor it leaves them. After a complete backfill also before it, from their join
        point or, if later, the end of what had been or was being read when they joined. */
    ghost function Joined(base: map<Addr, nat>, backfilled: bool): map<Addr, nat>
      reads this, feed
    {
      map a | a in feed.fills && a !in base && a in feed.cursors && a in feed.base ::
        if backfilled && reconcileOn then Min(feed.base[a], feed.cursors[a]) else feed.cursors[a]
    }

    /** Back to the base after an incomplete backfill, else to the first unreconciled block. */
    ghost function CappedAtClose(a: Addr, cursor: nat, base: map<Addr, nat>, backfilled: bool): nat
      reads this, feed, feed.rec
    {
      if !backfilled then (if a in base then Capped(cursor, base[a]) else cursor)
      else if reconcileOn then Capped(cursor, feed.rec.last + 1)
      else cursor
    }

    /** The end of a session: cursors go back to the base (incomplete backfill) or to the
        first unreconciled block. */
    method CloseSession(base: map<Addr, nat>, backfilled: bool, ghost from: nat, ghost p: nat)
      requires Valid() && feed.lo == 0 && feed.rec.ready == (backfilled && reconcileOn) && BaseIn(base) && Based(base)
      requires Backfilled(base, backfilled, from, p)
      modifies this`since, this`skipped, feed`cursors
      ensures NoGap() && AllSent() && feed.log == old(feed.log)
      ensures feed.cursors.Keys == old(feed.cursors).Keys
      ensures forall a | a in feed.cursors ::
                feed.cursors[a] == CappedAtClose(a, old(feed.cursors)[a], base, backfilled)
      ensures since == old(since) + Joined(base, backfilled)
      ensures skipped == old(skipped) + if backfilled && !reconcileOn then Passed(base, p) else {}
    {
      CapAtClose(base, backfilled);
      ghost var joined, passed := Joined(base, backfilled), if backfilled && !reconcileOn then Passed(base, p) else {};
      CappedIsIn(base, backfilled, joined, passed, from, p);
      Account(joined, passed);
      NoGapMeansSent();
    }

    ghost method Account(joined: map<Addr, nat>, passed: set<(Addr, nat)>)
      requires Valid() && (reconcileOn ==> passed == {})
      requires forall a | Answerable(a) :: InWith(a, joined, passed)
      modifies this`since, this`skipped
      ensures NoGap() && since == old(since) + joined && skipped == old(skipped) + passed
    {
      since, skipped := since + joined, skipped + passed;
      forall a | Answerable(a) ensures In(a, feed.cursors[a]) {
        assert old(InWith(a, joined, passed));
      }
    }

    /** What a complete backfill brought, if nothing reconciled after it. */
    ghost predicate Backfilled(base: map<Addr, nat>, backfilled: bool, from: nat, p: nat)
      reads this, feed
    {
      && (forall a | a in base :: base[a] >= from)
      && (backfilled && !reconcileOn ==> RoutedIn(feed.chain, feed.log, base, feed.routes.tracked, from, p + 1))
    }

    /** The blocks between where the backfill brought an address and its cursor. */
    ghost function Passed(base: map<Addr, nat>, p: nat): set<(Addr, nat)>
      reads this, feed`cursors
    {
      set a, b | a in base && b in (if a in feed.cursors then Blocks(Max(base[a], p + 1), feed.cursors[a]) else {}) ::
          (a, b)
    }

    method CapAtClose(base: map<Addr, nat>, backfilled: bool)
      requires Valid() && feed.rec.ready == (backfilled && reconcileOn)
      modifies feed`cursors
      ensures Valid() && feed.cursors.Keys == old(feed.cursors).Keys
      ensures forall a | a in feed.cursors ::
                feed.cursors[a] == CappedAtClose(a, old(feed.cursors)[a], base, backfilled)
    {
      if !backfilled {
        CapCursors(base);
      } else if reconcileOn {
        var floor := feed.rec.ResumeFloor();
        CapCursorsTo(floor);
      }
    }

    ghost predicate InWith(a: Addr, joined: map<Addr, nat>, passed: set<(Addr, nat)>)
      requires a in feed.routes.floors && a in feed.cursors
      reads this, feed
    {
      var starts := since + joined;
      AddressIn(feed.chain, feed.log, a, Max(feed.routes.floors[a], if a in starts then starts[a] else 0),
                feed.cursors[a], skipped + passed)
    }

    lemma CappedIsIn(base: map<Addr, nat>, backfilled: bool, joined: map<Addr, nat>, passed: set<(Addr, nat)>,
                     from: nat, p: nat)
      requires Valid() && feed.lo == 0 && feed.rec.ready == (backfilled && reconcileOn) && BaseIn(base) && Based(base)
      requires Backfilled(base, backfilled, from, p)
      requires !backfilled ==> forall a | a in base && a in feed.cursors :: feed.cursors[a] <= base[a]
      requires backfilled && reconcileOn ==> forall a | a in feed.cursors :: feed.cursors[a] <= feed.rec.last + 1
      requires joined == Joined(base, backfilled)
      requires passed == if backfilled && !reconcileOn then Passed(base, p) else {}
      ensures forall a | Answerable(a) :: InWith(a, joined, passed)
    {
      forall a | Answerable(a) ensures InWith(a, joined, passed) {
        if a in base {
          BaseCappedIsIn(base, backfilled, joined, passed, from, p, a);
        } else if backfilled && reconcileOn {
          ReconciledIsIn(a, Max(feed.routes.floors[a], feed.base[a]));
        }
      }
    }

    lemma BaseCappedIsIn(base: map<Addr, nat>, backfilled: bool, joined: map<Addr, nat>, passed: set<(Addr, nat)>,
                         from: nat, p: nat, a: Addr)
      requires Valid() && feed.lo == 0 && feed.rec.ready == (backfilled && reconcileOn) && BaseIn(base) && Based(base)
      requires Backfilled(base, backfilled, from, p) && Answerable(a) && a in base && a !in joined
      requires !backfilled ==> feed.cursors[a] <= base[a]
      requires backfilled && reconcileOn ==> feed.cursors[a] <= feed.rec.last + 1
      requires passed == if backfilled && !reconcileOn then Passed(base, p) else {}
      ensures InWith(a, joined, passed)
    {
      assert (since + joined).Keys == since.Keys + joined.Keys;
      if !backfilled {
        assert AddressIn(feed.chain, feed.log, a, feed.base[a], base[a], skipped);
      } else if reconcileOn {
        ReconciledIsIn(a, StartOf(a));
      } else {
        PassedIsIn(base, from, p, a);
      }
    }

    /** Without reconcile: up to where the backfill brought it, and past that it is skipped. */
    lemma PassedIsIn(base: map<Addr, nat>, from: nat, p: nat, a: Addr)
      requires Valid() && BaseIn(base) && Based(base) && Backfilled(base, true, from, p) && !reconcileOn
      requires Answerable(a) && a in base
      ensures AddressIn(feed.chain, feed.log, a, StartOf(a), feed.cursors[a], skipped + Passed(base, p))
    {
      forall e: Event | e.id.from == a && StartOf(a) <= e.block < feed.cursors[a] &&
          (a, e.block) !in skipped + Passed(base, p)
        ensures Emitted(feed.chain, e) <= feed.log.Settled(e)
      {
        assert e.block !in Blocks(Max(base[a], p + 1), feed.cursors[a]);
        if base[a] <= e.block {
          assert Routed(e, base, feed.routes.tracked);
        } else {
          assert AddressIn(feed.chain, feed.log, a, feed.base[a], base[a], skipped);
        }
      }
    }

    lemma ReconciledIsIn(a: Addr, start: nat)
      requires Valid() && feed.lo == 0 && feed.rec.ready && Answerable(a) && a in feed.base
      requires feed.base[a] <= start && feed.routes.floors[a] <= start
      requires feed.cursors[a] <= feed.rec.last + 1
      ensures AddressIn(feed.chain, feed.log, a, start, feed.cursors[a], {})
    {
      forall e: Event | e.id.from == a && start <= e.block < feed.cursors[a]
        ensures Emitted(feed.chain, e) <= feed.log.Settled(e)
      {
        assert feed.Scope().Claims(e);
      }
    }

    /** streamBase: the fills' cursors, none behind the committed block. */
    method OpenSession(from: nat, p: nat) returns (base: map<Addr, nat>)
      requires NoGap() && feed.resumeFloor == from
      requires forall a | a in feed.fills :: feed.cursors[a] >= from
      modifies feed
      ensures Valid() && fresh(feed.rec) && !feed.rec.ready && feed.lo == 0 && feed.ahead == p + 1 &&
              since == old(since)
      ensures base.Keys <= feed.routes.floors.Keys && feed.base.Keys <= base.Keys && BaseIn(base) && Based(base)
      ensures base.Keys == feed.fills && forall a | a in base :: base[a] == feed.cursors[a] >= from
      ensures reconcileOn ==> skipped == {}
    {
      Arrivals();  // while dialing
      base := map a | a in feed.fills :: feed.cursors[a];
      BeginSession(base, p);
    }

    method BeginSession(ghost base: map<Addr, nat>, p: nat)
      requires NoGap() && base.Keys == feed.fills && forall a | a in base :: base[a] == feed.cursors[a]
      modifies feed`rec, feed`lo, feed`ahead, feed`base
      ensures Valid() && fresh(feed.rec) && !feed.rec.ready && feed.lo == 0 && feed.ahead == p + 1
      ensures feed.base.Keys <= base.Keys && BaseIn(base) && Based(base)
    {
      feed.NewSession(0, map a | a in base && a in feed.routes.tracked :: StartOf(a), p + 1);
    }

    /** One session after a gap-fill that committed `from` and a successful dial. `stopped`
        means the surrounding context ended, and with it the run. */
    method Session(from: nat, p: nat) returns (stopped: bool)
      requires NoGap() && feed.resumeFloor == from
      requires forall a | a in feed.fills :: feed.cursors[a] >= from
      modifies this, feed, feed.rec
      ensures feed.rec == old(feed.rec) || fresh(feed.rec)
      ensures !stopped ==> NoGap() && AllSent()
    {
      var base := OpenSession(from, p);
      var backfilled := BackfillAndReconcile(base, from, p);
      stopped := EndLive(backfilled, base, from, p);
      if !stopped {
        CloseSession(base, backfilled, from, p);
      }
    }

    /** The live loop returns; a canceled one may drop the event in hand. */
    method EndLive(backfilled: bool, ghost base: map<Addr, nat>, ghost from: nat, ghost p: nat) returns (stopped: bool)
      requires feed.Valid() && feed.keyed && feed.rec.ready == (backfilled && reconcileOn) && BaseIn(base)
      requires base.Keys <= feed.routes.floors.Keys && Backfilled(base, backfilled, from, p)
      requires reconcileOn ==> skipped == {}
      modifies feed, feed.rec
      ensures feed.rec == old(feed.rec) || fresh(feed.rec)
      ensures Backfilled(base, backfilled, from, p)
      ensures feed.lo == old(feed.lo) && RoutesEvolve(old(feed.routes), feed.routes)
      ensures BaseGrows(old(feed.base), old(feed.routes).floors, feed.base, 0)
      ensures forall a | a in feed.fills :: a in old(feed.fills) || a in feed.base
      ensures !stopped ==> Valid() && feed.rec.ready == (backfilled && reconcileOn) && BaseIn(base)
    {
      feed.Interleave([]);
      stopped := *;
      var drop: bool := *;
      EmptyHand(stopped || (!backfilled && drop));
      if backfilled && !reconcileOn {
        RoutedLasts(feed.chain, base, old(feed.routes), feed.routes, old(feed.log), feed.log, from, p + 1);
      }
    }

    method EmptyHand(drop: bool)
      requires feed.Valid() && feed.keyed
      modifies feed, feed.rec
      ensures feed.Valid() && feed.log.hand.Empty? && feed.lo == old(feed.lo)
      ensures feed.rec == old(feed.rec) || fresh(feed.rec)
      ensures feed.routes == old(feed.routes) && feed.base == old(feed.base) && feed.fills == old(feed.fills)
      ensures forall e :: old(feed.log).Settled(e) <= feed.log.Settled(e)
      ensures if drop then !feed.rec.ready else feed.rec == old(feed.rec) && feed.rec.ready == old(feed.rec.ready)
    {
      if drop {
        feed.AbandonHand();
      } else {
        feed.FinishHand();
      }
    }

    /** runFirehoseKeysStream for `rounds` rounds: NoGap holds at every session boundary. */
    method Run(rounds: nat) returns (stopped: bool)
      requires NoGap()
      modifies this, feed, feed.rec
      ensures !stopped ==> NoGap() && AllSent()
    {
      stopped := false;
      NoGapMeansSent();
      for round := 0 to rounds
        invariant feed.rec == old(feed.rec) || fresh(feed.rec)
        invariant NoGap() && AllSent()
      {
        var r, tip, count, passes, firstGap := GapFill();
        if r.Stopped? {
          return true;
        }
        if r.Resume? {
          var dialed: bool, p: nat := *, *;
          if dialed {
            stopped := Session(r.block, p);
            if stopped {
              return;
            }
          } else {
            Arrivals();
          }
        }
        NoGapMeansSent();
      }
    }
  }

  // ---- What the cursor guard costs ---------------------------------------------------

  /** The only registration of a stream. */
  method JoinAlone(feed: Feed, a: Addr, j: nat)
    requires feed.Valid() && feed.keyed && feed.log.hand.Empty? && feed.routes == Routes({}, map[]) &&
             feed.cursors == map[]
    requires feed.base == map[] && feed.fills == {} && feed.arrivals == 1 && feed.resumeFloor == 0
    modifies feed`routes, feed`base, feed`cursors, feed`fills, feed`arrivals, feed`behind
    ensures feed.Valid() && feed.routes == Routes({a}, map[a := j]) && feed.cursors == map[a := j]
    ensures feed.base == map[a := Max(j, feed.ahead)] && feed.behind == old(feed.behind)
  {
    feed.Track(a);
    feed.Seed(a, j, 0);
  }

  /** A session of one address that starts reconciling after block n. */
  method OneAddress(chain: Chain, a: Addr, n: nat) returns (feed: Feed)
    requires WellFormed(chain)
    ensures fresh(feed) && fresh(feed.rec) && feed.Valid() && feed.chain == chain && feed.keyed
    ensures feed.log == Log([], [], Empty) && feed.behind == Behind({}, {})
    ensures feed.routes == Routes({a}, map[a := n + 1]) && feed.cursors == map[a := n + 1]
    ensures feed.rec.Value() == FRESH.Start(n) && !feed.ordered
  {
    feed := new Feed(chain, 10, true, false, 1);
    JoinAlone(feed, a, n + 1);
    feed.NewSession(n + 1, map[a := n + 1], n + 1);
    feed.StartReconcile(n);
  }

  lemma TwoBlocks(chain: Chain, e: Event, f: Event)
    requires WellFormed(chain) && f.block == e.block + 1 && chain(e.block) == [e] && chain(f.block) == [f]
    ensures Range(chain, e.block, f.block + 1) == [e, f]
    ensures Emitted(chain, e) == 1 && Count([], e) == 0 && Count([f], e) == 0
  {
    assert Range(chain, e.block, e.block + 1) == [e];
    assert [e][..0] == [] && [f][..0] == [];
    assert Count(chain(e.block), e) == Count([], e) + 1;
  }

  lemma OneCounted(n: nat, e: Event)
    requires e.block > n
    ensures var r := FRESH.Start(n).Observe(e);
            && r == FRESH.Start(n).Add(e) && r.hi == e.block && r.last == n && r.epoch == 0
            && Times(r.seen, e) == 1 && forall x: Event | x != e && x.block + WINDOW >= e.block :: Times(r.seen, x) == 0
  {
    var r0 := FRESH.Start(n);
    forall x: Event | x.block + WINDOW >= e.block ensures Times(r0.Add(e).seen, x) == if x == e then 1 else 0 {
      Recovery.AddTimes(r0, e, x);
    }
  }

  lemma BothCounted(n: nat, e: Event, f: Event)
    requires e.block > n && f.block == e.block + 1
    ensures var r := FRESH.Start(n).Observe(f).Observe(e);
            Times(r.seen, e) == 1 && Times(r.seen, f) == 1 && r.last == n && r.epoch == 0
  {
    OneCounted(n, f);
    var r := FRESH.Start(n).Observe(f);
    Recovery.AddTimes(r, e, e);
    Recovery.AddTimes(r, e, f);
  }

  lemma NoneMissing(e: Event, f: Event, seen: Seen)
    requires e != f && Times(seen, e) == 1 && Times(seen, f) == 1
    ensures Missing([e, f], seen) == []
  {
    assert [e, f][..1] == [e] && [e][..0] == [];
    assert Missing([e], seen) == [] && Count([e], f) == 0;
  }

  /** Live events out of order: `f` is delivered, then `e` of the block before it and the
      same address, which is counted and thrown away ... */
  method LateDelivery(chain: Chain, e: Event, f: Event) returns (feed: Feed)
    requires WellFormed(chain) && e.block > 0 && f.block == e.block + 1 && e.id.from == f.id.from
    requires chain(e.block) == [e] && chain(f.block) == [f]
    ensures fresh(feed) && fresh(feed.rec) && feed.chain == chain
    ensures feed.log == Log([f], [e], Empty) && feed.behind == Behind({e}, {})
    ensures feed.rec.Value() == FRESH.Start(e.block - 1).Observe(f).Observe(e)
  {
    TwoBlocks(chain, e, f);
    feed := OneAddress(chain, e.id.from, e.block - 1);
    DeliverLive(feed, f, e.block);
    ObserveLate(feed, e, f);
  }

  lemma ObservingKeepsLast(r: Rec, f: Event)
    ensures r.Observe(f).last == r.last && r.Observe(f).ready == r.ready
  {
  }

  /** The live path delivers `f`. */
  method DeliverLive(feed: Feed, f: Event, cursor: nat)
    requires feed.Valid() && feed.keyed && feed.log == Log([], [], Empty) && f.id.from in feed.routes.tracked
    requires feed.cursors == map[f.id.from := cursor] && f.block >= cursor
    modifies feed`log, feed`behind, feed`cursors, feed`processed, feed`liveLast, feed.rec
    ensures feed.Valid() && feed.log == Log([f], [], Empty) && feed.Cursor(f.id.from) == f.block
    ensures feed.behind == old(feed.behind) && feed.rec.Value() == old(feed.rec.Value()).Observe(f)
    ensures feed.rec.last == old(feed.rec.last) && feed.rec.ready == old(feed.rec.ready)
  {
    ObservingKeepsLast(feed.rec.Value(), f);
    feed.LiveObserve(f, []);
    feed.LiveGuard([]);
    feed.LiveSend([]);
  }

  /** The live path observes `e` below its cursor and throws it away. */
  method ObserveLate(feed: Feed, e: Event, f: Event)
    requires feed.Valid() && feed.keyed && feed.log == Log([f], [], Empty) && e.id.from in feed.routes.tracked
    requires feed.behind == Behind({}, {}) && feed.Cursor(e.id.from) > e.block && !feed.ordered
    requires Emitted(feed.chain, e) == 1 && Count([f], e) == 0
    modifies feed`log, feed`behind, feed.rec
    ensures feed.log == Log([f], [e], Empty) && feed.behind == Behind({e}, {})
    ensures feed.rec.Value() == old(feed.rec.Value()).Observe(e)
  {
    feed.LiveObserve(e, []);
    feed.LiveGuard([]);
  }

  /** ... so the next tick misses nothing in the two blocks and advances past them. */
  method LateEventIsLost(chain: Chain, e: Event, f: Event) returns (feed: Feed, miss: seq<Event>)
    requires WellFormed(chain) && e.block > 0 && f.block == e.block + 1 && e.id.from == f.id.from
    requires chain(e.block) == [e] && chain(f.block) == [f]
    ensures feed.chain == chain && miss == [] && feed.rec.last == f.block
    ensures Count(feed.log.sent, e) == 0 < Emitted(chain, e) && feed.behind == Behind({e}, {})
  {
    TwoBlocks(chain, e, f);
    BothCounted(e.block - 1, e, f);
    feed := LateDelivery(chain, e, f);
    NoneMissing(e, f, feed.rec.seen);
    var epoch, ok := feed.rec.epoch, true;
    miss, ok := feed.rec.MissingOf(Range(chain, e.block, f.block + 1), epoch);
    ok := feed.rec.Advance(f.block, epoch);
  }

  /** The race: `e` is in hand when a tick finds only `f` missing, sends it and moves the
      cursor past `e`; the guard throws `e` away, and the tick advances. */
  method OvertakenEventIsLost(chain: Chain, e: Event, f: Event) returns (feed: Feed, miss: seq<Event>)
    requires WellFormed(chain) && e.block > 0 && f.block == e.block + 1 && e.id.from == f.id.from
    requires chain(e.block) == [e] && chain(f.block) == [f]
    ensures feed.chain == chain && miss == [f] && feed.rec.last == f.block
    ensures Count(feed.log.sent, e) == 0 < Emitted(chain, e) && feed.behind == Behind({}, {e})
  {
    TwoBlocks(chain, e, f);
    OneCounted(e.block - 1, e);
    feed := OneAddress(chain, e.id.from, e.block - 1);
    feed.LiveObserve(e, []);
    OnlyTheOther(e, f, feed.rec.seen);
    var epoch, ok := feed.rec.epoch, true;
    miss, ok := feed.rec.MissingOf(Range(chain, e.block, f.block + 1), epoch);
    Overtake(feed, e, f);
    ok := feed.rec.Advance(f.block, epoch);
  }

  /** A tick's delivery of `f` while `e` is in hand, and then the guard. */
  method Overtake(feed: Feed, e: Event, f: Event)
    requires feed.Valid() && feed.keyed && feed.log == Log([], [], Observed(e)) && feed.behind == Behind({}, {})
    requires f.block == e.block + 1 && e.id.from == f.id.from && feed.cursors == map[e.id.from := e.block]
    requires Emitted(feed.chain, e) == 1
    modifies feed`log, feed`cursors, feed`behind, feed.rec
    ensures feed.log == Log([f], [e], Empty) && feed.behind == Behind({}, {e})
    ensures feed.rec.Value() == old(feed.rec.Value()).Add(f)
  {
    feed.SendRecovered(f);
    var ok := feed.MarkRecovered(f, feed.rec.epoch);
    assert [f][..0] == [] && Count([f], e) == 0;
    feed.SetCursor(f.id.from, f.block);
    feed.LiveGuard([]);
  }

  // ---- What joining behind a read range costs --------------------------------------------

  lemma {:induction false} NobodyRouted(es: seq<Event>)
    ensures Kept(es, true, Routes({}, map[])) == []
  {
    if es != [] {
      NobodyRouted(es[..|es| - 1]);
    }
  }

  /** A session of a stream without addresses that starts reconciling after block n. */
  method NobodyYet(chain: Chain, n: nat) returns (feed: Feed)
    requires WellFormed(chain)
    ensures fresh(feed) && fresh(feed.rec) && feed.Valid() && feed.chain == chain && feed.keyed
    ensures feed.log == Log([], [], Empty) && feed.routes == Routes({}, map[]) && feed.cursors == map[]
    ensures feed.base == map[] && feed.fills == {} && feed.arrivals == 1 && feed.resumeFloor == 0
    ensures feed.rec.Value() == FRESH.Start(n)
  {
    feed := new Feed(chain, 10, true, true, 1);
    feed.NewSession(0, map[], n + 1);
    feed.StartReconcile(n);
  }

  method ReadForNobody(feed: Feed, n: nat, t: nat)
    requires feed.Valid() && feed.keyed && feed.routes == Routes({}, map[]) && feed.rec.last == n < t
    modifies feed`ahead
    ensures feed.Valid() && feed.ahead == t + 1
  {
    var kept := Kept(Range(feed.chain, n + 1, t + 1), feed.keyed, feed.routes);
    NobodyRouted(Range(feed.chain, n + 1, t + 1));
    assert kept == [];
    feed.ahead := t + 1;
  }

  /** A tick has read (n, t] for nobody when `a` joins at block j of it, and advances. */
  method JoinBehind(feed: Feed, a: Addr, n: nat, j: nat, t: nat)
    requires feed.Valid() && feed.keyed && feed.log.hand.Empty? && feed.routes == Routes({}, map[]) &&
             feed.cursors == map[]
    requires feed.base == map[] && feed.fills == {} && feed.arrivals == 1 && feed.resumeFloor == 0
    requires feed.rec.ready && feed.rec.last == n < j <= t
    modifies feed`ahead, feed`routes, feed`base, feed`cursors, feed`fills, feed`arrivals, feed`behind, feed.rec
    ensures feed.Valid() && feed.routes == Routes({a}, map[a := j]) && feed.cursors == map[a := j]
    ensures feed.base == map[a := t + 1] && feed.rec.ready && feed.rec.last == t
  {
    ReadForNobody(feed, n, t);
    JoinAlone(feed, a, j);
    AdvancePast(feed, t);
  }

  /** The tick advances over blocks nobody is answered for. */
  method AdvancePast(feed: Feed, t: nat)
    requires feed.Valid() && feed.keyed && feed.rec.ready && feed.rec.last <= t < feed.ahead
    requires forall a | a in feed.base :: feed.base[a] > t
    modifies feed.rec
    ensures feed.Valid() && feed.rec.ready && feed.rec.last == t
  {
    var ok := feed.rec.Advance(t, feed.rec.epoch);
  }

  /** The limit on joiners: `e` is in the range in hand when its address joins before it,
      and the live stream delivers the first event `f` behind that range. Neither this
      session nor the next, which starts at the cursor, reads `e`. */
  method JoinedBehindIsLost(chain: Chain, n: nat, e: Event, f: Event) returns (feed: Feed)
    requires WellFormed(chain) && n < e.block < f.block && e.id.from == f.id.from && e in chain(e.block)
    ensures feed.Valid() && feed.chain == chain && feed.routes == Routes({f.id.from}, map[f.id.from := e.block])
    ensures feed.base == map[f.id.from := f.block] && feed.rec.ready &&
            e.block < feed.Cursor(f.id.from) == feed.rec.last + 1 == f.block
    ensures Count(feed.log.sent, e) == 0 < Emitted(chain, e)
  {
    feed := NobodyYet(chain, n);
    JoinThenDeliver(feed, n, e, f);
  }

  method JoinThenDeliver(feed: Feed, n: nat, e: Event, f: Event)
    requires feed.Valid() && feed.keyed && feed.log == Log([], [], Empty)
    requires feed.routes == Routes({}, map[]) && feed.cursors == map[]
    requires feed.base == map[] && feed.fills == {} && feed.arrivals == 1 && feed.resumeFloor == 0
    requires feed.rec.ready && feed.rec.last == n < e.block < f.block && e.id.from == f.id.from
    requires e in feed.chain(e.block)
    modifies feed, feed.rec
    ensures feed.Valid() && feed.routes == Routes({f.id.from}, map[f.id.from := e.block])
    ensures feed.base == map[f.id.from := f.block] && feed.rec == old(feed.rec) && feed.rec.ready
    ensures e.block < feed.Cursor(f.id.from) == feed.rec.last + 1 == f.block
    ensures Count(feed.log.sent, e) == 0 < Emitted(feed.chain, e)
  {
    JoinBehind(feed, f.id.from, n, e.block, f.block - 1);
    DeliverBehind(feed, e, f);
  }

  method DeliverBehind(feed: Feed, e: Event, f: Event)
    requires feed.Valid() && feed.keyed && feed.log == Log([], [], Empty) && e.id.from == f.id.from
    requires f.id.from in feed.routes.tracked && feed.cursors == map[f.id.from := e.block]
    requires e.block < f.block == feed.rec.last + 1 && e in feed.chain(e.block)
    modifies feed`log, feed`behind, feed`cursors, feed`processed, feed`liveLast, feed.rec
    ensures feed.Valid() && Count(feed.log.sent, e) == 0 < Emitted(feed.chain, e)
    ensures feed.rec.ready == old(feed.rec.ready) && e.block < feed.Cursor(f.id.from) == feed.rec.last + 1 == f.block
  {
    OnlyTheSecond(feed.chain, e, f);
    DeliverLive(feed, f, e.block);
  }

  /** The same in a session whose backfill does not complete, so that nothing reconciles:
      the live stream begins with `f`, and the joiner's cursor is not capped. */
  method JoinedUnreconciledIsLost(chain: Chain, n: nat, e: Event, f: Event) returns (feed: Feed)
    requires WellFormed(chain) && n < e.block < f.block && e.id.from == f.id.from && e in chain(e.block)
    ensures feed.Valid() && feed.chain == chain && feed.routes == Routes({e.id.from}, map[e.id.from := e.block])
    ensures !feed.rec.ready && feed.ahead == n + 1 && e.block < feed.Cursor(e.id.from) == f.block
    ensures Count(feed.log.sent, e) == 0 < Emitted(chain, e)
  {
    feed := new Feed(chain, 10, true, true, 1);
    feed.NewSession(0, map[], n + 1);
    JoinAlone(feed, e.id.from, e.block);
    DeliverLive(feed, f, e.block);
    OnlyTheSecond(chain, e, f);
  }

  lemma OnlyTheSecond(chain: Chain, e: Event, f: Event)
    requires e != f && e in chain(e.block)
    ensures Count([f], e) == 0 < Emitted(chain, e)
  {
    CountPositive(chain(e.block), e);
    CountPositive([f], e);
  }
}
