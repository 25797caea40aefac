/** A contract's background history (launchBackfill, backfillFrom, cancelBackfill): a
    goroutine that retries until its range is in, under a generation number, and then
    signals completion in band. Between any two of its steps other goroutines may use
    the channel, register, supersede, cancel and finish; RPCs fail finitely often. */
module Backfills {
  import opened Events

  /** An item of the events channel, with the backfill that put it there. */
  datatype Message = Deliver(gen: nat, e: Event) | Done(gen: nat)

  /** One backfill's own items, in order. */
  function Of(log: seq<Message>, gen: nat): seq<Message> {
    if log == [] then [] else
    var n := |log| - 1;
    Of(log[..n], gen) + (if log[n].gen == gen then [log[n]] else [])
  }

  function Delivers(gen: nat, es: seq<Event>): seq<Message> {
    seq(|es|, i requires 0 <= i < |es| => Deliver(gen, es[i]))
  }

  /** A whole backfill: every event of [from, to] once and in order, then its completion. */
  function Whole(gen: nat, chain: Chain, from: nat, to: nat): seq<Message> {
    Delivers(gen, Range(chain, from, to + 1)) + [Done(gen)]
  }

  lemma OfAppend(log: seq<Message>, m: Message, gen: nat)
    ensures Of(log + [m], gen) == if m.gen == gen then Of(log, gen) + [m] else Of(log, gen)
  {
    assert (log + [m])[..|log|] == log;
  }

  lemma {:induction false} NoneOf(log: seq<Message>, gen: nat)
    requires forall m | m in log :: m.gen != gen
    ensures Of(log, gen) == []
  {
    if log != [] {
      assert log[|log| - 1] in log;
      NoneOf(log[..|log| - 1], gen);
    }
  }

  lemma DeliversConcat(gen: nat, a: seq<Event>, b: seq<Event>)
    ensures Delivers(gen, a + b) == Delivers(gen, a) + Delivers(gen, b)
  {
  }

  lemma DeliversPart(gen: nat, chain: Chain, from: nat, current: nat, end: nat, to: nat)
    requires from <= current <= end <= to
    ensures Delivers(gen, Range(chain, from, current) + Range(chain, current, end + 1)) <= Whole(gen, chain, from, to)
  {
    RangeSplit(chain, from, current, end + 1);
    RangeSplit(chain, from, end + 1, to + 1);
    DeliversConcat(gen, Range(chain, from, end + 1), Range(chain, end + 1, to + 1));
  }

  /** The next event of chunk [current, end] continues a prefix of the whole. */
  lemma NextIsPrefix(gen: nat, chain: Chain, from: nat, current: nat, end: nat, to: nat, i: nat)
    requires from <= current <= end <= to && i < |Range(chain, current, end + 1)|
    ensures var events := Range(chain, current, end + 1);
            var before := Delivers(gen, Range(chain, from, current)) + Delivers(gen, events[..i]);
            && before + [Deliver(gen, events[i])] == Delivers(gen, Range(chain, from, current)) +
               Delivers(gen, events[..i + 1])
            && before + [Deliver(gen, events[i])] <= Whole(gen, chain, from, to)
  {
    NextDelivered(gen, Range(chain, from, current), Range(chain, current, end + 1), i);
    DeliversPart(gen, chain, from, current, end, to);
  }

  lemma NextDelivered(gen: nat, a: seq<Event>, events: seq<Event>, i: nat)
    requires i < |events|
    ensures Delivers(gen, a) + Delivers(gen, events[..i]) + [Deliver(gen, events[i])] ==
            Delivers(gen, a) + Delivers(gen, events[..i + 1])
    ensures Delivers(gen, a) + Delivers(gen, events[..i + 1]) <= Delivers(gen, a + events)
  {
    DeliversConcat(gen, events[..i + 1], events[i + 1..]);
    DeliversConcat(gen, a, events);
    assert events == events[..i + 1] + events[i + 1..];
    assert Delivers(gen, events[..i + 1]) == Delivers(gen, events[..i]) + [Deliver(gen, events[i])];
  }

  lemma WholeChunk(gen: nat, chain: Chain, from: nat, current: nat, end: nat)
    requires from <= current <= end
    ensures var events := Range(chain, current, end + 1);
            Delivers(gen, Range(chain, from, current)) + Delivers(gen, events[..|events|]) ==
                Delivers(gen, Range(chain, from, end + 1))
  {
    RangeSplit(chain, from, current, end + 1);
  }

  const TO_TIP: nat := 0xFFFF_FFFF_FFFF_FFFF

  /** The shared part of EventSubscriber that backfills touch. */
  class Subscriber {
    const blocksPerQuery: nat
    var tracked: map<Addr, nat>   // backfills: address to the generation in flight
    var issued: nat               // backfillGen
    var cancelled: set<nat>
    var log: seq<Message>         // what went into the events channel
    var tip: nat                  // what tipBlockNumber answers
    var failures: nat             // RPC, tip and accept-wait failures still to come

    constructor (blocksPerQuery: nat, failures: nat)
      requires blocksPerQuery > 0
      ensures Valid() && this.blocksPerQuery == blocksPerQuery && tracked == map[] && log == []
    {
      this.blocksPerQuery, this.failures := blocksPerQuery, failures;
      tracked, issued, cancelled, log, tip := map[], 0, {}, [], 0;
    }

    predicate Tracks(a: Addr, gen: nat)
      reads this`tracked
    {
      a in tracked && tracked[a] == gen
    }

    /** Generations are given out once: what is in flight, cancelled or in the channel has
        one that was. */
    ghost predicate Valid()
      reads this
    {
      && blocksPerQuery > 0 && tip < TO_TIP
      && (forall m | m in log :: m.gen <= issued)
      && (forall g | g in cancelled :: g <= issued)
      && (forall a | a in tracked :: tracked[a] <= issued)
      && (forall a, b | a in tracked && b in tracked && tracked[a] == tracked[b] :: a == b)
    }

    /** What holds for backfill `gen` of `a` whenever another goroutine can look: an
        uncancelled one is tracked until its completion is in, and what it put into the
        channel is the beginning of the whole, in order, with nothing twice. */
    ghost predicate Kept(a: Addr, gen: nat, chain: Chain, from: nat, to: nat)
      reads this
    {
      && Valid() && gen <= issued
      && (forall b | b in tracked && tracked[b] == gen :: b == a)
      && Of(log, gen) <= Whole(gen, chain, from, to)
      && (gen !in cancelled && !Tracks(a, gen) ==> Of(log, gen) == Whole(gen, chain, from, to))
    }

    twostate predicate Evolved()
      reads this
    {
      old(cancelled) <= cancelled && old(tip) <= tip && failures <= old(failures) && old(issued) <= issued
    }

    /** The locked part of launchBackfill: a re-add supersedes and cancels the earlier attempt. */
    method Track(a: Addr) returns (gen: nat)
      modifies this`tracked, this`issued, this`cancelled
      ensures gen == issued == old(issued) + 1
      ensures tracked == old(tracked)[a := gen]
      ensures cancelled == if a in old(tracked) then old(cancelled) + {old(tracked)[a]} else old(cancelled)
      ensures old(Valid()) ==> Valid()
    {
      issued := issued + 1;
      gen := issued;
      if a in tracked {
        cancelled := cancelled + {tracked[a]};
      }
      tracked := tracked[a := gen];
    }

    /** cancelBackfill. */
    method Cancel(a: Addr)
      modifies this`cancelled
      ensures cancelled == if a in tracked then old(cancelled) + {tracked[a]} else old(cancelled)
      ensures old(Valid()) ==> Valid()
    {
      if a in tracked {
        cancelled := cancelled + {tracked[a]};
      }
    }

    /** The deferred untrack: only one's own entry. */
    method Untrack(a: Addr, gen: nat)
      modifies this`tracked
      ensures !Tracks(a, gen)
      ensures tracked == if old(Tracks(a, gen)) then old(tracked) - {a} else old(tracked)
      ensures old(Valid()) ==> Valid()
    {
      if a in tracked && tracked[a] == gen {
        tracked := tracked - {a};
      }
    }

    /** What anybody else's steps leave to backfill `gen`. */
    twostate predicate Undisturbed(a: Addr, gen: nat)
      reads this
    {
      && Evolved() && failures == old(failures)
      && Of(log, gen) == old(Of(log, gen))
      && (if old(Tracks(a, gen)) then Tracks(a, gen) || gen in cancelled else !Tracks(a, gen))
    }

    /** Any number of steps of anybody else, at any point of backfill `gen`. */
    method Others(a: Addr, gen: nat, ghost chain: Chain, ghost from: nat, ghost to: nat)
      requires Kept(a, gen, chain, from, to)
      modifies this
      ensures Kept(a, gen, chain, from, to) && Undisturbed(a, gen)
    {
      var steps: nat := *;
      while steps > 0
        invariant Kept(a, gen, chain, from, to) && Undisturbed(a, gen)
      {
        Another(a, gen, chain, from, to);
        steps := steps - 1;
      }
    }

    method Another(a: Addr, gen: nat, ghost chain: Chain, ghost from: nat, ghost to: nat)
      requires Kept(a, gen, chain, from, to)
      modifies this
      ensures Kept(a, gen, chain, from, to) && Undisturbed(a, gen)
    {
      var b: Addr := *;
      var m: Message := *;
      var mined: int := *;
      if {
        case true => var _ := Track(b);
        case true => Cancel(b);
        case b in tracked && tracked[b] != gen => Untrack(b, tracked[b]);
        case m.gen != gen && m.gen <= issued =>
          OfAppend(log, m, gen);
          log := log + [m];
        case 0 <= mined && tip + mined < TO_TIP => tip := tip + mined;
        case true =>
      }
    }

    /** Whether an RPC of backfill `gen` fails: only while failures are left, or once it is cancelled. */
    method Fails(gen: nat) returns (failed: bool)
      modifies this`failures
      ensures failures <= old(failures)
      ensures failed ==> failures < old(failures) || gen in cancelled
    {
      failed := *;
      if failed && failures > 0 {
        failures := failures - 1;
      } else {
        failed := failed && gen in cancelled;
      }
    }

    /** Send unless cancelled: a cancelled context may win the select. */
    method Send(a: Addr, gen: nat, m: Message, ghost chain: Chain, ghost from: nat, ghost to: nat) returns (sent: bool)
      requires Kept(a, gen, chain, from, to) && m.gen == gen && (Tracks(a, gen) || gen in cancelled)
      requires Of(log, gen) + [m] <= Whole(gen, chain, from, to)
      modifies this
      ensures Kept(a, gen, chain, from, to) && Evolved() && (Tracks(a, gen) || gen in cancelled)
      ensures Of(log, gen) == if sent then old(Of(log, gen)) + [m] else old(Of(log, gen))
      ensures !sent ==> gen in cancelled
    {
      Others(a, gen, chain, from, to);
      sent := true;
      if gen in cancelled {
        sent := *;
      }
      if sent {
        OfAppend(log, m, gen);
        log := log + [m];
      }
    }

    /** How far a backfill got: everything before `next`, with `target` resolved or not. */
    ghost predicate Reached(a: Addr, gen: nat, chain: Chain, from: nat, next: nat, target: nat)
      reads this
    {
      && Kept(a, gen, chain, from, target) && (Tracks(a, gen) || gen in cancelled)
      && from <= next && (next <= target + 1 || next == from)
      && Of(log, gen) == Delivers(gen, Range(chain, from, next))
    }

    /** backfillFrom: resumes at `next` and stops at the first block not fully delivered. */
    method BackfillFrom(a: Addr, gen: nat, chain: Chain, ghost from: nat, next: nat, to: nat)
        returns (stopped: nat, ok: bool)
      requires Reached(a, gen, chain, from, next, to)
      modifies this
      ensures Kept(a, gen, chain, from, to) && Evolved() && (Tracks(a, gen) || gen in cancelled)
      ensures from <= stopped && (stopped <= to + 1 || stopped == from)
      ensures ok ==> Of(log, gen) == Delivers(gen, Range(chain, from, to + 1))
      ensures !ok && gen !in cancelled ==>
                failures < old(failures) && stopped <= to && Of(log, gen) == Delivers(gen, Range(chain, from, stopped))
    {
      stopped := next;
      while stopped <= to
        invariant Reached(a, gen, chain, from, stopped, to) && Evolved()
        decreases (to as int) - stopped
      {
        stopped, ok := NextChunk(a, gen, chain, from, stopped, to);
        if !ok {
          return;
        }
      }
      ok := true;
      EmptyRange(chain, from, stopped, to);
    }

    method NextChunk(a: Addr, gen: nat, chain: Chain, ghost from: nat, current: nat, to: nat)
        returns (next: nat, ok: bool)
      requires Reached(a, gen, chain, from, current, to) && current <= to
      modifies this
      ensures Kept(a, gen, chain, from, to) && Evolved() && (Tracks(a, gen) || gen in cancelled)
      ensures if ok then current < next && Reached(a, gen, chain, from, next, to)
              else next == current && (gen !in cancelled ==>
                                       failures < old(failures) && Reached(a, gen, chain, from, next, to))
    {
      var end := if current + blocksPerQuery - 1 > to then to else current + blocksPerQuery - 1;
      ok := Chunk(a, gen, chain, from, current, end, to);
      next := if ok then end + 1 else current;
    }

    /** One chunk of it: fetched whole, then sent event by event. */
    method Chunk(a: Addr, gen: nat, chain: Chain, ghost from: nat, current: nat, end: nat, ghost to: nat)
        returns (ok: bool)
      requires from <= current <= end <= to && Kept(a, gen, chain, from, to) && (Tracks(a, gen) || gen in cancelled)
      requires Of(log, gen) == Delivers(gen, Range(chain, from, current))
      modifies this
      ensures Kept(a, gen, chain, from, to) && Evolved() && (Tracks(a, gen) || gen in cancelled)
      ensures ok ==> Of(log, gen) == Delivers(gen, Range(chain, from, end + 1))
      ensures !ok && gen !in cancelled ==>
              failures < old(failures) && Of(log, gen) == Delivers(gen, Range(chain, from, current))
    {
      Others(a, gen, chain, from, to);
      if gen in cancelled {
        return false;
      }
      var failed := Fails(gen);
      Others(a, gen, chain, from, to);
      if failed {
        return false;
      }
      ok := SendAll(a, gen, chain, from, current, end, to);
    }

    method SendNext(a: Addr, gen: nat, chain: Chain, ghost from: nat, current: nat, end: nat, ghost to: nat, i: nat)
        returns (ok: bool)
      requires from <= current <= end <= to && i < |Range(chain, current, end + 1)|
      requires Kept(a, gen, chain, from, to) && (Tracks(a, gen) || gen in cancelled)
      requires Of(log, gen) == Delivers(gen, Range(chain, from, current)) +
               Delivers(gen, Range(chain, current, end + 1)[..i])
      modifies this
      ensures Kept(a, gen, chain, from, to) && Evolved() && (Tracks(a, gen) || gen in cancelled)
      ensures ok ==>
                Of(log, gen) ==
                Delivers(gen, Range(chain, from, current)) + Delivers(gen, Range(chain, current, end + 1)[..i + 1])
      ensures !ok ==> gen in cancelled
    {
      NextIsPrefix(gen, chain, from, current, end, to, i);
      ok := Send(a, gen, Deliver(gen, Range(chain, current, end + 1)[i]), chain, from, to);
    }

    method SendAll(a: Addr, gen: nat, chain: Chain, ghost from: nat, current: nat, end: nat, ghost to: nat)
        returns (ok: bool)
      requires from <= current <= end <= to && Kept(a, gen, chain, from, to) && (Tracks(a, gen) || gen in cancelled)
      requires Of(log, gen) == Delivers(gen, Range(chain, from, current))
      modifies this
      ensures Kept(a, gen, chain, from, to) && Evolved() && (Tracks(a, gen) || gen in cancelled)
      ensures ok ==> Of(log, gen) == Delivers(gen, Range(chain, from, end + 1))
      ensures !ok ==> gen in cancelled
    {
      var events := Range(chain, current, end + 1);
      ghost var sofar := Delivers(gen, Range(chain, from, current));
      for i := 0 to |events|
        invariant Kept(a, gen, chain, from, to) && Evolved() && (Tracks(a, gen) || gen in cancelled)
        invariant Of(log, gen) == sofar + Delivers(gen, events[..i])
      {
        ok := SendNext(a, gen, chain, from, current, end, to, i);
        if !ok {
          return;
        }
      }
      ok := true;
      WholeChunk(gen, chain, from, current, end);
    }

    /** The range's end, read from the tip once if it was left open, and awaited if asked. */
    method Resolve(a: Addr, gen: nat, ghost chain: Chain, ghost from: nat, ghost next: nat, to: nat, awaitTo: bool)
      returns (target: nat, failed: bool)
      requires Reached(a, gen, chain, from, next, to) && (to == TO_TIP ==> next == from)
      modifies this`failures
      ensures Reached(a, gen, chain, from, next, target) && failures <= old(failures)
      ensures if to != TO_TIP then target == to else target == tip || (target == TO_TIP && failed)
      ensures failed ==> failures < old(failures) || gen in cancelled
    {
      target, failed := to, false;
      if target == TO_TIP {
        failed := Fails(gen);
        if failed {
          return;
        }
        target := tip;
      }
      if awaitTo {
        failed := Fails(gen);
      }
    }

    /** The goroutine of launchBackfill, entered right after Track. */
    method Run(a: Addr, gen: nat, chain: Chain, from: nat, to: nat, awaitTo: bool) returns (target: nat)
      requires Valid() && Tracks(a, gen) && gen !in cancelled && Of(log, gen) == []
      modifies this
      ensures to != TO_TIP ==> target == to
      ensures to == TO_TIP && gen !in cancelled ==> old(tip) <= target <= tip
      ensures Valid() && !Tracks(a, gen) && old(cancelled) <= cancelled
      ensures Of(log, gen) <= Whole(gen, chain, from, target)
      ensures gen !in cancelled ==> Of(log, gen) == Whole(gen, chain, from, target)
    {
      target := to;
      var next := from;
      while true
        invariant Reached(a, gen, chain, from, next, target) && Evolved()
        invariant if to == TO_TIP then (target == TO_TIP && next == from) || old(tip) <= target <= tip else target == to
        decreases failures
      {
        Others(a, gen, chain, from, target);
        if gen in cancelled {
          var slot: bool := *;
          if !slot {
            break;
          }
        }
        var failed;
        target, failed := Resolve(a, gen, chain, from, next, target, awaitTo);
        if !failed {
          next, failed := Attempt(a, gen, chain, from, next, target);
        }
        if !failed || gen in cancelled {
          break;
        }
      }
      Untrack(a, gen);
    }

    /** One attempt at the rest of the range, completed if it succeeds. */
    method Attempt(a: Addr, gen: nat, chain: Chain, ghost from: nat, next: nat, to: nat)
        returns (stopped: nat, failed: bool)
      requires Reached(a, gen, chain, from, next, to)
      modifies this
      ensures Kept(a, gen, chain, from, to) && Evolved()
      ensures !failed && gen !in cancelled ==> Of(log, gen) == Whole(gen, chain, from, to)
      ensures failed && gen !in cancelled ==> failures < old(failures) && Reached(a, gen, chain, from, stopped, to)
    {
      var ok;
      stopped, ok := BackfillFrom(a, gen, chain, from, next, to);
      failed := !ok;
      if !failed {
        Complete(a, gen, chain, from, to);
      }
    }

    /** launchBackfill: a generation of its own, and the goroutine. */
    method Launch(a: Addr, chain: Chain, from: nat, to: nat, awaitTo: bool) returns (gen: nat, target: nat)
      requires Valid()
      modifies this
      ensures Valid() && gen == old(issued) + 1 && !Tracks(a, gen)
      ensures if to == TO_TIP then gen !in cancelled ==> old(tip) <= target <= tip else target == to
      ensures a in old(tracked) ==> old(tracked)[a] in cancelled
      ensures Of(log, gen) <= Whole(gen, chain, from, target)
      ensures gen !in cancelled ==> Of(log, gen) == Whole(gen, chain, from, target)
    {
      gen := Track(a);
      NoneOf(log, gen);
      target := Run(a, gen, chain, from, to, awaitTo);
    }

    /** The in-band completion: only the current, uncancelled backfill signals. */
    method Complete(a: Addr, gen: nat, ghost chain: Chain, ghost from: nat, ghost to: nat)
      requires Kept(a, gen, chain, from, to) && (Tracks(a, gen) || gen in cancelled)
      requires Of(log, gen) == Delivers(gen, Range(chain, from, to + 1))
      modifies this
      ensures Kept(a, gen, chain, from, to) && Evolved()
      ensures gen !in cancelled ==> Of(log, gen) == Whole(gen, chain, from, to)
    {
      Others(a, gen, chain, from, to);
      var current := Tracks(a, gen);
      Others(a, gen, chain, from, to);
      if current && gen !in cancelled {
        var _ := Send(a, gen, Done(gen), chain, from, to);
      }
    }
  }

  lemma EmptyRange(chain: Chain, from: nat, stopped: nat, to: nat)
    requires from <= stopped && to < stopped && (stopped <= to + 1 || stopped == from)
    ensures Range(chain, from, stopped) == Range(chain, from, to + 1)
  {
  }
}
