/** The per-contract transport (subscribeContract, subscribeWSS, pollUntilCaughtUp,
    pollEvents, backfillFrom, serveSession) over whole runs: any pattern of dial
    failures, dropped sessions, failed or partial backfills, failed ticks and reorg
    notifications, and a live stream that may deliver anything or nothing. */
module ContractTransport {
  import opened Events
  import opened Delivery

  const MAX_DIAL_FAILURES: nat := 3
  const MAX_SESSION_FAILURES: nat := 5

  /** Where a reconnect resumes (subscriber.go:1106-1114); floor 0 means reconcile is off or never started. */
  function ResumeBlock(backfilled: bool, liveLast: nat, p: nat, next: nat, floor: nat): nat {
    if !backfilled then Min(next, liveLast)
    else if floor > 0 then Min(Max(liveLast, p), floor)
    else Max(liveLast, p)
  }

  /** Up to where a session brought its stream: the reconcile floor, or where its backfill
      stopped, if that was not behind the block it resumed from. */
  function Reached(backfilled: bool, resume: nat, next: nat, floor: nat): nat {
    if backfilled && floor > 0 then floor else Max(resume, next)
  }

  /** A reconnect resumes past that if and only if reconcile never ran after a complete
      backfill and a live event was ahead of it. */
  lemma ResumeSkipsIff(backfilled: bool, liveLast: nat, resume: nat, p: nat, next: nat, floor: nat)
    requires backfilled ==> next == p + 1
    ensures ResumeBlock(backfilled, liveLast, p, next, floor) > Reached(backfilled, resume, next, floor) <==>
              backfilled && floor == 0 && liveLast > Max(resume, next)
  {
  }

  ghost predicate AllSent(chain: Chain, log: Log, lo: nat, hi: nat, skipped: set<nat>) {
    forall e: Event | lo <= e.block < hi && e.block !in skipped :: Emitted(chain, e) <= log.Settled(e)
  }

  lemma RangeSent(chain: Chain, f: nat, t: nat, start: Log, log: Log)
    requires WellFormed(chain) && SentSoFar(start, Range(chain, f, t + 1), log)
    ensures AllSent(chain, log, f, t + 1, {})
  {
    forall e: Event | f <= e.block <= t ensures Emitted(chain, e) <= log.Settled(e) {
      RangeCounts(chain, f, t + 1, e);
    }
  }

  class ContractStream {
    const feed: Feed
    const startBlock: nat
    const reconcileOn: bool
    const lag: nat
    var lastBlock: nat
    ghost var skipped: set<nat>  // the blocks that reconnects without reconcile resumed past

    constructor (chain: Chain, blocksPerQuery: nat, startBlock: nat, reconcileOn: bool, lag: nat)
      requires WellFormed(chain) && blocksPerQuery > 0
      ensures NoGap() && fresh(feed) && fresh(feed.rec)
      ensures this.startBlock == startBlock && lastBlock == startBlock && this.reconcileOn == reconcileOn
      ensures feed.chain == chain && feed.log == Log([], [], Empty) && skipped == {}
    {
      feed := new Feed(chain, blocksPerQuery, false, false, 0);
      this.startBlock, lastBlock, this.reconcileOn, this.lag, skipped := startBlock, startBlock, reconcileOn, lag, {};
    }

    ghost predicate Valid()
      reads this, feed, feed.rec
    {
      feed.Valid() && !feed.keyed && (reconcileOn ==> skipped == {})
    }

    ghost predicate AllIn(hi: nat)
      reads this`skipped, feed
    {
      AllSent(feed.chain, feed.log, startBlock, hi, skipped)
    }

    /** Between sessions: nothing is in hand and every emission of every block from
        StartBlock up to, not including, the resume block was sent, but for the skipped
        blocks. With reconcile on there are none. */
    ghost predicate NoGap()
      reads this, feed, feed.rec
    {
      Valid() && feed.log.hand.Empty? && AllIn(lastBlock)
    }

    /** The events of [f, t], sent in order; false if the context ended first. */
    method SendRange(f: nat, t: nat, live: bool) returns (ok: bool)
      requires feed.Valid() && f <= t
      modifies feed, feed.rec
      ensures feed.Valid() && feed.Disturbed()
      ensures !live && old(feed.log).hand.Empty? ==> feed.log.hand.Empty?
      ensures ok ==> AllSent(feed.chain, feed.log, f, t + 1, {})
    {
      var events := Range(feed.chain, f, t + 1);
      ghost var start := feed.log;
      ok := true;
      for i := 0 to |events|
        invariant feed.Valid() && feed.Disturbed()
        invariant !live && start.hand.Empty? ==> feed.log.hand.Empty?
        invariant SentSoFar(start, events[..i], feed.log)
      {
        ghost var before := feed.log;
        ok := SendNext(events[i], live);
        if !ok {
          return;
        }
        OneMoreSent(start, before, feed.log, events, i);
      }
      assert events[..|events|] == events;
      RangeSent(feed.chain, f, t, start, feed.log);
    }

    method SendNext(e: Event, live: bool) returns (ok: bool)
      requires feed.Valid()
      modifies feed, feed.rec
      ensures feed.Valid() && feed.Disturbed()
      ensures !live && old(feed.log).hand.Empty? ==> feed.log.hand.Empty?
      ensures ok ==> OneSent(old(feed.log), e, feed.log)
    {
      if live {
        feed.Interleave([]);
      }
      if * {
        return false;
      }
      feed.SendHistorical(e);
      ok := true;
    }

    /** backfillFrom: `next` is the first block not fully delivered, to + 1 on success (also
        if that is behind `from`). */
    method BackfillFrom(from: nat, to: nat) returns (next: nat, ok: bool)
      requires feed.Valid()
      modifies feed, feed.rec
      ensures feed.Valid() && feed.Disturbed()
      ensures AllSent(feed.chain, feed.log, from, next, {})
      ensures if ok then next == to + 1 else from <= next
    {
      next := from;
      while next <= to
        invariant feed.Valid() && feed.Disturbed()
        invariant from <= next <= Max(from, to + 1) && AllSent(feed.chain, feed.log, from, next, {})
      {
        feed.Interleave([]);
        if * {
          return next, false;  // context ended, or the fetch failed
        }
        var end := Min(next + feed.blocksPerQuery - 1, to);
        var sent := SendRange(next, end, true);
        if !sent {
          return next, false;
        }
        next := end + 1;
      }
      next, ok := to + 1, true;
    }

    /** serveSession's backfill goroutine: wait for p, backfill, hand off, reconcile. */
    method BackfillAndReconcile(resume: nat, p: nat) returns (next: nat, backfilled: bool)
      requires Valid() && AllIn(resume)
      requires !feed.rec.ready && feed.lo == startBlock && feed.ahead == Max(resume, p + 1)
      modifies feed, feed.rec
      ensures Valid() && feed.rec == old(feed.rec) && feed.lo == startBlock
      ensures feed.rec.ready == (backfilled && reconcileOn)
      ensures AllIn(Max(resume, next)) && (backfilled ==> next == p + 1)
    {
      next, backfilled := resume, false;
      feed.Interleave([]);
      if * {
        return;  // p was not accepted in time
      }
      next, backfilled := BackfillFrom(resume, p);
      if !backfilled {
        return;
      }
      if reconcileOn {
        feed.StartReconcile(if resume > p + 1 then resume - 1 else p);
        var ticks: nat := *;
        while ticks > 0
          invariant Valid() && feed.rec == old(feed.rec) && feed.lo == startBlock && feed.rec.ready
          invariant AllIn(Max(resume, next))
        {
          ticks := ticks - 1;
          feed.Interleave([]);
          var r, tip := feed.ReconcileTick(lag);
        }
      }
    }

    /** One session after a successful dial with pre-confirmed block p. `stopped` means
        the surrounding context ended, and with it the run. */
    method Session(p: nat) returns (stopped: bool, delivered: nat)
      requires NoGap()
      modifies this, feed, feed.rec
      ensures feed.rec == old(feed.rec) || fresh(feed.rec)
      ensures !stopped ==> NoGap()
      ensures Valid() && feed.log.hand.Empty?
    {
      var resume, before := lastBlock, feed.processed;
      feed.NewSession(startBlock, map[], Max(resume, p + 1));
      feed.liveLast := resume;
      var next, backfilled := BackfillAndReconcile(resume, p);
      stopped := EndLive(backfilled);
      if !stopped {
        CloseSession(backfilled, p, resume, next);
        feed.AbandonHand();
      }
      delivered := if feed.processed >= before then feed.processed - before else 0;
    }

    /** The live loop returns; a canceled one may drop the event in hand. */
    method EndLive(backfilled: bool) returns (stopped: bool)
      requires Valid() && feed.rec.ready == (backfilled && reconcileOn)
      modifies feed, feed.rec
      ensures Valid() && feed.log.hand.Empty? && feed.lo == old(feed.lo)
      ensures feed.rec == old(feed.rec) || fresh(feed.rec)
      ensures forall e :: old(feed.log).Settled(e) <= feed.log.Settled(e)
      ensures !stopped ==> feed.rec.ready == (backfilled && reconcileOn)
    {
      feed.Interleave([]);
      stopped := *;
      var drop: bool := *;
      if stopped || (!backfilled && drop) {
        feed.AbandonHand();
      } else {
        feed.FinishHand();
      }
    }

    method CloseSession(backfilled: bool, p: nat, ghost resume: nat, next: nat)
      requires Valid() && feed.lo == startBlock
      requires feed.rec.ready == (backfilled && reconcileOn)
      requires AllIn(Max(resume, next)) && (backfilled ==> next == p + 1)
      requires backfilled && reconcileOn ==> feed.log.hand.Empty?
      modifies this`lastBlock, this`skipped
      ensures Valid() && AllIn(lastBlock)
      ensures lastBlock == ResumeBlock(backfilled, feed.liveLast, p, next,
                                       if reconcileOn then feed.rec.Value().ResumeFloor() else 0)
      ensures skipped == old(skipped) + if backfilled && !reconcileOn then Blocks(Max(resume, next), lastBlock) else {}
    {
      var floor := 0;
      if reconcileOn {
        floor := feed.rec.ResumeFloor();
      }
      lastBlock := ResumeBlock(backfilled, feed.liveLast, p, next, floor);
      ResumeSkipsIff(backfilled, feed.liveLast, resume, p, next, floor);
      if backfilled && !reconcileOn {
        skipped := skipped + Blocks(Max(resume, next), lastBlock);
      }
    }

    /** One range of pollUntilCaughtUp or pollEvents. */
    method PollRange(latest: nat) returns (ok: bool)
      requires NoGap() && lastBlock <= latest
      modifies this`lastBlock, feed, feed.rec
      ensures NoGap() && feed.rec == old(feed.rec) && (ok ==> old(lastBlock) < lastBlock <= latest + 1)
      ensures !ok ==> lastBlock == old(lastBlock)
    {
      var end := Min(lastBlock + feed.blocksPerQuery, latest);
      ok := SendRange(lastBlock, end, false);
      if ok {
        lastBlock := end + 1;
      }
    }

    /** pollUntilCaughtUp, for `rounds` iterations of its loop. */
    method PollUntilCaughtUp(rounds: nat) returns (caughtUp: bool, tip: nat)
      requires NoGap()
      modifies this`lastBlock, feed, feed.rec
      ensures NoGap() && feed.rec == old(feed.rec)
      ensures caughtUp ==> tip <= lastBlock + CATCHUP_THRESHOLD
      ensures lastBlock >= old(lastBlock)
    {
      tip := 0;
      for round := 0 to rounds
        invariant NoGap() && feed.rec == old(feed.rec) && lastBlock >= old(lastBlock)
      {
        var failed: bool, latest: nat := *, *;
        if !failed {
          if latest < CATCHUP_THRESHOLD || lastBlock + CATCHUP_THRESHOLD >= latest {
            return true, latest;
          }
          var ok := PollRange(latest);
          if !ok {
            return false, 0;
          }
        }
      }
      caughtUp := false;
    }

    /** pollEvents, for `rounds` iterations of its loop. */
    method PollEvents(rounds: nat)
      requires NoGap()
      modifies this`lastBlock, feed, feed.rec
      ensures NoGap() && feed.rec == old(feed.rec)
    {
      for round := 0 to rounds
        invariant NoGap() && feed.rec == old(feed.rec)
      {
        var failed: bool, latest: nat := *, *;
        if !failed && lastBlock <= latest {
          var ok := PollRange(latest);
          if !ok {
            return;
          }
        }
      }
    }

    /** subscribeWSS after `rounds` rounds of dialing: `gaveUp` is its error return (too many
        failed dials or eventless sessions), after which the caller falls back to polling. */
    method SubscribeWSS(rounds: nat) returns (gaveUp: bool, stopped: bool)
      requires NoGap()
      modifies this, feed, feed.rec
      ensures feed.rec == old(feed.rec) || fresh(feed.rec)
      ensures !stopped ==> NoGap()
      ensures gaveUp ==> !stopped
    {
      gaveUp, stopped := false, false;
      var dialFails, sessionFails := 0, 0;
      for round := 0 to rounds
        invariant feed.rec == old(feed.rec) || fresh(feed.rec)
        invariant NoGap()
        invariant dialFails < MAX_DIAL_FAILURES && sessionFails < MAX_SESSION_FAILURES
      {
        var dialed: bool, p: nat := *, *;
        if !dialed {
          dialFails := dialFails + 1;
          if dialFails >= MAX_DIAL_FAILURES {
            return true, false;
          }
        } else {
          dialFails := 0;
          var delivered;
          stopped, delivered := Session(p);
          if stopped {
            return;
          }
          if delivered == 0 {
            sessionFails := sessionFails + 1;
            if sessionFails >= MAX_SESSION_FAILURES {
              return true, false;
            }
          } else {
            sessionFails := 0;
          }
        }
      }
    }

    /** subscribeContract: whatever fails and wherever the run is looked at, every block of
        [StartBlock, lastBlock) is in that no reconnect without reconcile resumed past. */
    method SubscribeContract(forcePolling: bool, catchup: bool, r1: nat, r2: nat, r3: nat) returns (stopped: bool)
      requires NoGap()
      modifies this, feed, feed.rec
      ensures !stopped ==> NoGap()
    {
      stopped := false;
      if forcePolling {
        PollEvents(r1);
        return;
      }
      if catchup {
        var caughtUp, tip := PollUntilCaughtUp(r1);
        if !caughtUp {
          return;
        }
      }
      var gaveUp;
      gaveUp, stopped := SubscribeWSS(r2);
      if gaveUp {
        PollEvents(r3);
      }
    }
  }

  // ---- Without reconcile ----------------------------------------------------------

  /** Historical events, with nothing in between. */
  method SendHistory(feed: Feed, events: seq<Event>)
    requires feed.Valid()
    modifies feed`log
    ensures feed.Valid() && feed.log == old(feed.log).(sent := old(feed.log).sent + events)
  {
    for i := 0 to |events|
      invariant feed.Valid() && feed.log == old(feed.log).(sent := old(feed.log).sent + events[..i])
    {
      feed.SendHistorical(events[i]);
    }
    assert events[..|events|] == events;
  }

  /** The live path delivers `f`. */
  method DeliverLive(feed: Feed, f: Event)
    requires feed.Valid() && !feed.keyed && feed.log.hand.Empty? && !feed.rec.ready
    modifies feed, feed.rec
    ensures feed.Valid() && feed.rec == old(feed.rec) && !feed.rec.ready && feed.lo == old(feed.lo)
    ensures feed.log == old(feed.log).(sent := old(feed.log).sent + [f])
    ensures feed.liveLast == Max(old(feed.liveLast), f.block)
  {
    feed.LiveObserve(f, []);
    feed.LiveGuard([]);
    feed.LiveSend([]);
  }

  /** A session of a stream at `e`'s block, accepted just before it: there is nothing to
      backfill, and the live stream begins with `f`. */
  method FirstSession(s: ContractStream, e: Event, f: Event)
    requires s.NoGap() && !s.reconcileOn && s.lastBlock == s.startBlock == e.block && 0 < e.block < f.block
    requires s.feed.log == Log([], [], Empty) && s.skipped == {}
    modifies s, s.feed, s.feed.rec
    ensures fresh(s.feed.rec) && s.NoGap() && s.lastBlock == f.block && s.feed.log == Log([f], [], Empty)
    ensures s.skipped == Blocks(e.block, f.block)
  {
    s.feed.NewSession(s.startBlock, map[], e.block);
    s.feed.liveLast := s.lastBlock;
    DeliverLive(s.feed, f);
    s.CloseSession(true, e.block - 1, e.block, e.block);
  }

  lemma RangeAppended(chain: Chain, f: nat, t: nat, start: Log, log: Log)
    requires WellFormed(chain) && f <= t && log == start.(sent := start.sent + Range(chain, f, t + 1))
    ensures AllSent(chain, log, f, t + 1, {}) && forall e :: start.Settled(e) <= log.Settled(e)
  {
    forall e ensures log.Settled(e) == start.Settled(e) + Count(Range(chain, f, t + 1), e) {
      CountConcat(start.sent, Range(chain, f, t + 1), e);
    }
    RangeSent(chain, f, t, start, log);
  }

  /** A session of a quiet stream with everything from its resume block to p backfilled. */
  method QuietSession(s: ContractStream, p: nat)
    requires s.NoGap() && !s.reconcileOn && s.lastBlock <= p
    modifies s, s.feed, s.feed.rec
    ensures s.NoGap() && s.lastBlock == p && s.skipped == old(s.skipped)
    ensures s.feed.log == old(s.feed.log).(sent := old(s.feed.log).sent + Range(s.feed.chain, old(s.lastBlock), p + 1))
  {
    var resume := s.lastBlock;
    s.feed.NewSession(s.startBlock, map[], p + 1);
    s.feed.liveLast := resume;
    ghost var start := s.feed.log;
    SendHistory(s.feed, Range(s.feed.chain, resume, p + 1));
    RangeAppended(s.feed.chain, resume, p, start, s.feed.log);
    s.CloseSession(true, p, resume, p + 1);
  }

  /** The limit without reconcile: the live stream begins past what the backfill brought
      (or loses `e`), and the reconnect resumes at the last block it delivered. `e` is
      passed, and no later backfill, here up to any block, reads that far back. */
  method SkippedEventIsLost(chain: Chain, e: Event, f: Event, p: nat) returns (s: ContractStream)
    requires WellFormed(chain) && 0 < e.block < f.block <= p && e in chain(e.block) && f in chain(f.block)
    ensures s.NoGap() && s.feed.chain == chain && s.startBlock == e.block < s.lastBlock == p && e.block in s.skipped
    ensures Count(s.feed.log.sent, e) == 0 < Emitted(chain, e)
  {
    s := new ContractStream(chain, 10, e.block, false, 0);
    FirstSession(s, e, f);
    QuietSession(s, p);
    NotFetched(chain, e, f, p);
  }

  lemma NotFetched(chain: Chain, e: Event, f: Event, p: nat)
    requires WellFormed(chain) && e.block < f.block <= p && e in chain(e.block)
    ensures Count([f] + Range(chain, f.block, p + 1), e) == 0 < Emitted(chain, e)
  {
    CountConcat([f], Range(chain, f.block, p + 1), e);
    RangeCounts(chain, f.block, p + 1, e);
    CountPositive(chain(e.block), e);
    assert [f][..0] == [];
  }
}
