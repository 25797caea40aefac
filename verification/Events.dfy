/** Events, their identities, and the chain a stream reads over HTTP. */
module Events {

  type Addr = nat

  /** What the source hashes into an eventID. The hash is taken to be injective,
      so an identity is the hashed content itself; two emissions with the same
      content in one transaction share it. */
  datatype EventId = EventId(tx: nat, from: Addr, keys: seq<nat>, data: seq<nat>)

  datatype Event = Event(block: nat, id: EventId)

  /** A node's answer for one subscription filter: block number to the events of that block. */
  type Chain = nat -> seq<Event>

  ghost predicate WellFormed(chain: Chain) {
    forall b: nat, e: Event | e in chain(b) :: e.block == b
  }

  /** Occurrences of `e` in a sequence. */
  function Count(es: seq<Event>, e: Event): nat {
    if es == [] then 0 else
    Count(es[..|es| - 1], e) + (if es[|es| - 1] == e then 1 else 0)
  }

  lemma {:induction false} CountPositive(es: seq<Event>, e: Event)
    ensures Count(es, e) > 0 <==> e in es
  {
    if es != [] {
      CountPositive(es[..|es| - 1], e);
    }
  }

  lemma {:induction false} CountConcat(a: seq<Event>, b: seq<Event>, e: Event)
    ensures Count(a + b, e) == Count(a, e) + Count(b, e)
  {
    if b == [] {
      assert a + b == a;
    } else {
      assert (a + b)[..|a + b| - 1] == a + b[..|b| - 1];
      CountConcat(a, b[..|b| - 1], e);
    }
  }

  /** The events a routing predicate keeps, in order. */
  function Filter(es: seq<Event>, keep: Event -> bool): seq<Event> {
    if es == [] then [] else
    var n := |es| - 1;
    Filter(es[..n], keep) + (if keep(es[n]) then [es[n]] else [])
  }

  lemma {:induction false} FilterCount(es: seq<Event>, keep: Event -> bool, e: Event)
    ensures Count(Filter(es, keep), e) == if keep(e) then Count(es, e) else 0
  {
    if es != [] {
      var n := |es| - 1;
      FilterCount(es[..n], keep, e);
      if keep(es[n]) {
        CountConcat(Filter(es[..n], keep), [es[n]], e);
        assert [es[n]][..0] == [];
      } else {
        assert Filter(es, keep) == Filter(es[..n], keep);
      }
    }
  }

  function From(es: seq<Event>, a: Addr): seq<Event> {
    Filter(es, (e: Event) => e.id.from == a)
  }

  /** How often the chain emits `e`. */
  function Emitted(chain: Chain, e: Event): nat {
    Count(chain(e.block), e)
  }

  /** The events of blocks lo, ..., hi - 1, in order. */
  function Range(chain: Chain, lo: nat, hi: nat): seq<Event>
    decreases hi
  {
    if hi <= lo then [] else Range(chain, lo, hi - 1) + chain(hi - 1)
  }

  lemma {:induction false} RangeCounts(chain: Chain, lo: nat, hi: nat, e: Event)
    requires WellFormed(chain)
    ensures Count(Range(chain, lo, hi), e) == if lo <= e.block < hi then Emitted(chain, e) else 0
    decreases hi
  {
    if lo < hi {
      RangeCounts(chain, lo, hi - 1, e);
      CountConcat(Range(chain, lo, hi - 1), chain(hi - 1), e);
      CountPositive(chain(hi - 1), e);
    }
  }

  lemma {:induction false} RangeSplit(chain: Chain, lo: nat, mid: nat, hi: nat)
    requires lo <= mid <= hi
    ensures Range(chain, lo, hi) == Range(chain, lo, mid) + Range(chain, mid, hi)
    decreases hi
  {
    if mid < hi {
      RangeSplit(chain, lo, mid, hi - 1);
    }
  }

  lemma {:induction false} RangeBlocks(chain: Chain, lo: nat, hi: nat, i: nat)
    requires WellFormed(chain) && i < |Range(chain, lo, hi)|
    ensures lo <= Range(chain, lo, hi)[i].block < hi
    decreases hi
  {
    if i < |Range(chain, lo, hi - 1)| {
      RangeBlocks(chain, lo, hi - 1, i);
    }
  }
}
