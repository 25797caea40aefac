/** Reorgs against in-flight ticks: every interleaving of the live path, reorg
    rollbacks and one reconcile tick, as a labelled state machine. The tick's
    steps are the critical sections of snapshot, missing, send, mark, advance. */
module StaleTicks {
  import opened Events
  import opened Reconcile

  datatype Tick =
    | Idle
    | Ranging(epoch: nat)                                // between two ranges
    | Sending(epoch: nat, queue: seq<Event>)             // `missing` returned, not all sent
    | Sent(epoch: nat, event: Event, queue: seq<Event>)  // sent, not yet marked

  /** `sends`, `marks` and `advances` count what ticks did so far. */
  datatype System = System(rec: Rec, tick: Tick, sends: nat, marks: nat, advances: nat)

  datatype Step =
    | Observe(e: Event)
    | Rollback(start: nat)
    | Begin
    | Fetch(events: seq<Event>)
    | Send
    | Mark
    | Advance(to: nat)
    | Abort  // an RPC failure or a canceled context ends the tick

  function Next(s: System, step: Step): System {
    match step
    case Observe(e) => s.(rec := s.rec.Observe(e))
    case Rollback(start) => s.(rec := s.rec.Rollback(start))
    case Begin => if s.tick.Idle? then s.(tick := Ranging(s.rec.epoch)) else s
    case Fetch(events) =>
      if !s.tick.Ranging? then s
      else if s.tick.epoch != s.rec.epoch then s.(tick := Idle)
      else s.(tick := Sending(s.tick.epoch, Missing(events, s.rec.seen)))
    case Send =>
      if s.tick.Sending? && s.tick.queue != []
      then s.(tick := Sent(s.tick.epoch, s.tick.queue[0], s.tick.queue[1..]), sends := s.sends + 1)
      else s
    case Mark =>
      if !s.tick.Sent? then s
      else if s.tick.epoch != s.rec.epoch then s.(tick := Idle)
      else s.(rec := s.rec.Add(s.tick.event), tick := Sending(s.tick.epoch, s.tick.queue), marks := s.marks + 1)
    case Advance(to) =>
      if !(s.tick.Sending? && s.tick.queue == []) then s
      else if s.tick.epoch != s.rec.epoch then s.(tick := Idle)
      else s.(rec := s.rec.Advance(to), tick := Ranging(s.tick.epoch), advances := s.advances + 1)
    case Abort => s.(tick := Idle)
  }

  function Run(s: System, steps: seq<Step>): System {
    if steps == [] then s else Next(Run(s, steps[..|steps| - 1]), steps[|steps| - 1])
  }

  /** Ticks only ever hold an epoch the reconciler has had. */
  ghost predicate EpochsInOrder(s: System) {
    !s.tick.Idle? ==> s.tick.epoch <= s.rec.epoch
  }

  lemma {:induction false} EpochsStayInOrder(s: System, steps: seq<Step>)
    requires EpochsInOrder(s)
    ensures EpochsInOrder(Run(s, steps))
  {
    if steps != [] {
      EpochsStayInOrder(s, steps[..|steps| - 1]);
    }
  }

  /** Until a tick begins afresh, whatever else happens after a reorg rollback from
      `start`: nothing is marked, nothing advances, at most one event is sent (the
      one already past its check), and a started reconciler stays below the reorg. */
  lemma {:induction false} RollbackStopsTheTick(s: System, start: nat, steps: seq<Step>)
    requires EpochsInOrder(s)
    requires Begin !in steps
    ensures var r := Next(s, Rollback(start)); var t := Run(r, steps);
            && t.marks == s.marks
            && t.advances == s.advances
            && t.sends <= s.sends + 1
            && (s.tick.Idle? || s.tick.Ranging? || s.tick.Sent? ==> t.sends == s.sends)
            && (s.rec.ready && start > 0 ==> t.rec.last < start)
            && t.rec.last <= s.rec.last
  {
    var r := Next(s, Rollback(start));
    StaleInvariant(r, steps);
  }

  /** How many more events a tick whose epoch is gone can still send. */
  function Budget(tick: Tick): nat {
    if tick.Sending? && tick.queue != [] then 1 else 0
  }

  lemma {:induction false} StaleInvariant(r: System, steps: seq<Step>)
    requires !r.tick.Idle? ==> r.tick.epoch < r.rec.epoch
    requires Begin !in steps
    ensures var t := Run(r, steps);
            && (!t.tick.Idle? ==> t.tick.epoch < t.rec.epoch)
            && t.marks == r.marks && t.advances == r.advances
            && r.sends <= t.sends
            && t.sends + Budget(t.tick) <= r.sends + Budget(r.tick)
            && t.rec.ready == r.rec.ready
            && t.rec.last <= r.rec.last
  {
    if steps != [] {
      var n := |steps| - 1;
      assert steps[n] in steps;
      StaleInvariant(r, steps[..n]);
    }
  }

  /** The bound of one late send is reached: the event was past its check when the reorg arrived. */
  lemma OneLateSendHappens(e: Event)
    requires e.block > 0
    ensures var s := Run(System(FRESH.Start(0), Idle, 0, 0, 0), [Begin, Fetch([e])]);
            Run(Next(s, Rollback(e.block)), [Send, Mark, Send]).sends == 1
  {
    var s0 := System(FRESH.Start(0), Idle, 0, 0, 0);
    var s1 := Next(s0, Begin);
    assert Missing([e], s1.rec.seen) == [e] by {
      assert [e][..0] == [];
    }
    var s2 := Next(s1, Fetch([e]));
    assert [Begin, Fetch([e])][..1] == [Begin] && [Begin][..0] == [];
    assert Run(s0, [Begin]) == s1;
    assert Run(s0, [Begin, Fetch([e])]) == s2;
    var r := Next(s2, Rollback(e.block));
    assert [Send, Mark, Send][..2] == [Send, Mark] && [Send, Mark][..1] == [Send] && [Send][..0] == [];
    assert Run(r, [Send]) == Next(r, Send);
    assert Run(r, [Send, Mark]) == Next(Next(r, Send), Mark);
  }

  // ---- Before the hand-off ------------------------------------------------------

  /** What can reach a reconciler that was not started: live deliveries and reorgs. */
  datatype Early = Delivered(e: Event) | Reorged(start: nat)

  function Before(steps: seq<Early>): Rec {
    if steps == [] then FRESH else
    var r := Before(steps[..|steps| - 1]);
    match steps[|steps| - 1]
    case Delivered(e) => r.Observe(e)
    case Reorged(start) => r.Rollback(start)
  }

  /** The lowest block some reorg started at. */
  function Lowest(steps: seq<Early>): Pending {
    if steps == [] then NoPending else
    var rest, last := Lowest(steps[..|steps| - 1]), steps[|steps| - 1];
    if last.Reorged? && (rest.NoPending? || last.start < rest.block) then Pending(last.start) else rest
  }

  lemma {:induction false} LowestIsLeast(steps: seq<Early>)
    ensures Lowest(steps).NoPending? <==> forall step | step in steps :: !step.Reorged?
    ensures Lowest(steps).Pending? ==>
              Reorged(Lowest(steps).block) in steps && forall step | step in steps && step.Reorged? ::
                  Lowest(steps).block <= step.start
  {
    if steps != [] {
      LowestIsLeast(steps[..|steps| - 1]);
      assert steps == steps[..|steps| - 1] + [steps[|steps| - 1]];
    }
  }

  /** Whatever live deliveries and reorgs come before `start(p)`, it puts `last` at p, or
      at one below the lowest reorg if that is not above p, clamped at 0. */
  lemma {:induction false} PendingReorgLowersTheHandOff(steps: seq<Early>, p: nat)
    ensures var last, low := Before(steps).Start(p).last, Lowest(steps);
            last == if low.NoPending? || low.block > p then p else if low.block == 0 then 0 else low.block - 1
  {
    PendingIsLowest(steps);
  }

  lemma {:induction false} PendingIsLowest(steps: seq<Early>)
    ensures Before(steps).pending == Lowest(steps) && !Before(steps).ready
  {
    if steps != [] {
      PendingIsLowest(steps[..|steps| - 1]);
    }
  }

  /** The limit s > 0 is real: a rollback from block 0 leaves a started reconciler where it was. */
  lemma RollbackLowersIff(r: Rec, start: nat)
    requires r.ready && r.last >= start
    ensures r.Rollback(start).last < start <==> start > 0
    ensures start == 0 ==> r.Rollback(start).last == r.last
  {
  }
}
