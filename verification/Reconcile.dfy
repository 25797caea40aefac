/** One live session's reconcile state (internal/provider/reconcile.go): what the
    live path delivered, how far HTTP reconciliation got, and the epoch that
    invalidates in-flight ticks. `Rec` is the state as a value with one function
    per operation; class `Reconciler` updates the source's fields in place. */
module Reconcile {
  import opened Events

  const WINDOW: nat := 1024

  type Seen = map<nat, multiset<EventId>>

  function Times(seen: Seen, e: Event): nat {
    if e.block in seen then seen[e.block][e.id] else 0
  }

  function KeepFrom(seen: Seen, floor: nat): Seen {
    map b | b in seen && floor <= b :: seen[b]
  }

  function KeepBelow(seen: Seen, start: nat): Seen {
    map b | b in seen && b < start :: seen[b]
  }

  datatype Pending = NoPending | Pending(block: nat)

  datatype Rec = Rec(seen: Seen, hi: nat, last: nat, ready: bool, epoch: nat, pending: Pending) {

    function Add(e: Event): Rec {
      var m := (if e.block in seen then seen[e.block] else multiset{}) + multiset{e.id};
      var grown := seen[e.block := m];
      if e.block <= hi then this.(seen := grown)
      else this.(hi := e.block, seen := if e.block > WINDOW then KeepFrom(grown, e.block - WINDOW) else grown)
    }

    function Observe(e: Event): Rec {
      if ready && e.block <= last then this else Add(e)
    }

    function StartAt(p: nat): nat {
      if pending.Pending? && pending.block <= p
      then if pending.block == 0 then 0 else pending.block - 1
      else p
    }

    function Start(p: nat): Rec {
      this.(last := StartAt(p), ready := true, seen := KeepFrom(seen, StartAt(p) + 1))
    }

    function Advance(to: nat): Rec {
      if to > last then this.(last := to, seen := KeepFrom(seen, to + 1)) else this
    }

    function Rollback(start: nat): Rec {
      this.(epoch := epoch + 1,
            pending := if !ready && (pending.NoPending? || start < pending.block) then Pending(start) else pending,
            seen := KeepBelow(seen, start),
            last := if ready && start > 0 && last >= start then start - 1 else last)
    }

    function ResumeFloor(): nat {
      if ready then last + 1 else 0
    }
  }

  const FRESH: Rec := Rec(map[], 0, 0, false, 0, NoPending)

  /** The occurrences of an HTTP fetch beyond those the live path delivered, in fetch order. */
  function Missing(es: seq<Event>, seen: Seen): seq<Event> {
    if es == [] then [] else
    var n := |es| - 1;
    Missing(es[..n], seen) + (if Count(es[..n], es[n]) >= Times(seen, es[n]) then [es[n]] else [])
  }

  function MarkAll(r: Rec, es: seq<Event>): Rec {
    if es == [] then r else MarkAll(r, es[..|es| - 1]).Add(es[|es| - 1])
  }

  // ---- The object ------------------------------------------------------------

  class Reconciler {
    var seen: Seen
    var hi: nat
    var last: nat
    var ready: bool
    var epoch: nat
    var pending: nat
    var hasPending: bool

    ghost function Value(): Rec
      reads this
    {
      Rec(seen, hi, last, ready, epoch, if hasPending then Pending(pending) else NoPending)
    }

    constructor ()
      ensures Value() == FRESH
    {
      seen, hi, last, ready, epoch, pending, hasPending := map[], 0, 0, false, 0, 0, false;
    }

    method Prune(floor: nat)
      modifies this`seen
      ensures seen == KeepFrom(old(seen), floor)
    {
      var blocks := seen.Keys;
      while blocks != {}
        invariant blocks <= seen.Keys <= old(seen).Keys
        invariant forall b | b in old(seen) :: b in seen <==> b in blocks || floor <= b
        invariant forall b | b in seen :: seen[b] == old(seen)[b]
        decreases blocks
      {
        var b :| b in blocks;
        blocks := blocks - {b};
        if b < floor {
          seen := seen - {b};
        }
      }
      assert seen.Keys == KeepFrom(old(seen), floor).Keys;
    }

    method AddLocked(e: Event)
      modifies this`seen, this`hi
      ensures Value() == old(Value()).Add(e)
    {
      if e.block !in seen {
        seen := seen[e.block := multiset{}];
      }
      seen := seen[e.block := seen[e.block] + multiset{e.id}];
      if e.block > hi {
        hi := e.block;
        if hi > WINDOW {
          Prune(hi - WINDOW);
        }
      }
    }

    method Observe(e: Event)
      modifies this
      ensures Value() == old(Value()).Observe(e)
    {
      if ready && e.block <= last {
        return;
      }
      AddLocked(e);
    }

    method Start(p: nat)
      modifies this
      ensures Value() == old(Value()).Start(p)
    {
      var at := p;
      if hasPending && pending <= p {
        at := if pending == 0 then 0 else pending - 1;
      }
      last, ready := at, true;
      Prune(at + 1);
    }

    method Snapshot() returns (l: nat, ep: nat)
      ensures l == Value().last && ep == Value().epoch
    {
      l, ep := last, epoch;
    }

    method Advance(to: nat, ep: nat) returns (ok: bool)
      modifies this
      ensures ok == (old(epoch) == ep)
      ensures Value() == if ok then old(Value()).Advance(to) else old(Value())
    {
      if epoch != ep {
        return false;
      }
      if to > last {
        last := to;
        Prune(to + 1);
      }
      ok := true;
    }

    method ResumeFloor() returns (f: nat)
      ensures f == Value().ResumeFloor()
    {
      f := if ready then last + 1 else 0;
    }

    method Forget(start: nat)
      modifies this`seen
      ensures seen == KeepBelow(old(seen), start)
    {
      var blocks := seen.Keys;
      while blocks != {}
        invariant blocks <= seen.Keys <= old(seen).Keys
        invariant forall b | b in old(seen) :: b in seen <==> b in blocks || b < start
        invariant forall b | b in seen :: seen[b] == old(seen)[b]
        decreases blocks
      {
        var b :| b in blocks;
        blocks := blocks - {b};
        if b >= start {
          seen := seen - {b};
        }
      }
      assert seen.Keys == KeepBelow(old(seen), start).Keys;
    }

    method Rollback(start: nat)
      modifies this
      ensures Value() == old(Value()).Rollback(start)
    {
      epoch := epoch + 1;
      if !ready && (!hasPending || start < pending) {
        pending, hasPending := start, true;
      }
      Forget(start);
      if ready && start > 0 && last >= start {
        last := start - 1;
      }
    }

    method MissingOf(es: seq<Event>, ep: nat) returns (out: seq<Event>, ok: bool)
      ensures ok == (epoch == ep)
      ensures out == if ok then Missing(es, seen) else []
    {
      out, ok := [], true;
      if epoch != ep {
        return [], false;
      }
      var local: map<Event, nat> := map[];
      for i := 0 to |es|
        invariant forall e :: (if e in local then local[e] else 0) == Count(es[..i], e)
        invariant out == Missing(es[..i], seen)
      {
        var n := if es[i] in local then local[es[i]] else 0;
        local := local[es[i] := n + 1];
        assert es[..i + 1] == es[..i] + [es[i]];
        assert es[..i + 1][..i] == es[..i];
        if n >= Times(seen, es[i]) {
          out := out + [es[i]];
        }
      }
      assert es[..|es|] == es;
    }

    method Mark(e: Event, ep: nat) returns (ok: bool)
      modifies this
      ensures ok == (old(epoch) == ep)
      ensures Value() == if ok then old(Value()).Add(e) else old(Value())
    {
      if epoch != ep {
        return false;
      }
      AddLocked(e);
      ok := true;
    }
  }
}
