/** Exact recovery: what `missing` returns, and what a retry of the same fetch
    returns after part of it was sent and marked. */
module Recovery {
  import opened Events
  import opened Reconcile

  ghost predicate IsSubsequence(sub: seq<Event>, es: seq<Event>) {
    sub == [] ||
    (es != [] &&
     ((sub[|sub| - 1] == es[|es| - 1] && IsSubsequence(sub[..|sub| - 1], es[..|es| - 1])) ||
      IsSubsequence(sub, es[..|es| - 1])))
  }

  /** Exactly max(0, fetched - seen) occurrences of every event ... */
  lemma {:induction false} MissingCount(es: seq<Event>, seen: Seen, e: Event)
    ensures Count(Missing(es, seen), e) == if Count(es, e) > Times(seen, e) then Count(es, e) - Times(seen, e) else 0
  {
    if es != [] {
      var n := |es| - 1;
      MissingCount(es[..n], seen, e);
      if Count(es[..n], es[n]) >= Times(seen, es[n]) {
        CountConcat(Missing(es[..n], seen), [es[n]], e);
        assert [es[n]][..0] == [];
      } else {
        assert Missing(es, seen) == Missing(es[..n], seen);
      }
    }
  }

  /** ... in fetch order. */
  lemma {:induction false} MissingInOrder(es: seq<Event>, seen: Seen)
    ensures IsSubsequence(Missing(es, seen), es)
  {
    if es != [] {
      var n := |es| - 1;
      MissingInOrder(es[..n], seen);
      var out := Missing(es, seen);
      if out != Missing(es[..n], seen) {
        assert out[..|out| - 1] == Missing(es[..n], seen);
      }
    }
  }

  lemma PrefixCount(es: seq<Event>, j: nat, e: Event)
    requires j <= |es|
    ensures Count(es, e) == Count(es[..j], e) + Count(es[j..], e)
  {
    assert es == es[..j] + es[j..];
    CountConcat(es[..j], es[j..], e);
  }

  lemma NothingMissing(es: seq<Event>, seen: Seen)
    ensures Missing(es, seen) == [] <==> forall e | e in es :: Count(es, e) <= Times(seen, e)
  {
    var out := Missing(es, seen);
    if out != [] {
      var x := out[0];
      CountPositive(out, x);
      MissingCount(es, seen, x);
      CountPositive(es, x);
    } else {
      forall e | e in es ensures Count(es, e) <= Times(seen, e) {
        MissingCount(es, seen, e);
      }
    }
  }

  lemma RetryStep(es: seq<Event>, seen: Seen, j: nat)
    requires j < |Missing(es, seen)|
    ensures es != []
    ensures var n := |es| - 1; var head := Missing(es[..n], seen);
            && j <= |head| && head[..j] == Missing(es, seen)[..j]
            && (Count(es[..n], es[n]) >= Times(seen, es[n]) <==>
                Count(es[..n], es[n]) >= Times(seen, es[n]) + Count(head[..j], es[n]))
  {
    var n := |es| - 1;
    var head := Missing(es[..n], seen);
    MissingCount(es[..n], seen, es[n]);
    PrefixCount(head, j, es[n]);
  }

  /** A retry that sees the first j missing events as delivered returns the other ones. */
  lemma {:induction false} RetryReturnsTheRest(es: seq<Event>, seen: Seen, after: Seen, j: nat)
    requires j <= |Missing(es, seen)|
    requires forall e | e in es :: Times(after, e) == Times(seen, e) + Count(Missing(es, seen)[..j], e)
    ensures Missing(es, after) == Missing(es, seen)[j..]
  {
    var out := Missing(es, seen);
    if j == |out| {
      assert out[..j] == out;
      forall e | e in es ensures Count(es, e) <= Times(after, e) {
        MissingCount(es, seen, e);
      }
      NothingMissing(es, after);
    } else {
      RetryStep(es, seen, j);
      var n := |es| - 1;
      var head := Missing(es[..n], seen);
      RetryReturnsTheRest(es[..n], seen, after, j);
      assert es[n] in es;
      if Count(es[..n], es[n]) >= Times(seen, es[n]) {
        assert out[j..] == head[j..] + [es[n]];
      }
    }
  }

  /** No mark of `ms` raises the window past a block of `es`. A caller can check it before the call. */
  ghost predicate InWindow(r: Rec, ms: seq<Event>, es: seq<Event>) {
    forall m, e | m in ms && e in es && m.block > r.hi :: m.block <= e.block + WINDOW
  }

  lemma AddTimes(r: Rec, x: Event, e: Event)
    ensures r.Add(x).hi >= r.hi
    ensures Times(r.Add(x).seen, e) <= Times(r.seen, e) + (if x == e then 1 else 0)
    ensures x.block <= r.hi || x.block <= e.block + WINDOW ==>
              Times(r.Add(x).seen, e) == Times(r.seen, e) + (if x == e then 1 else 0)
  {
    var m := (if x.block in r.seen then r.seen[x.block] else multiset{}) + multiset{x.id};
    assert x.block == e.block ==> (x == e <==> x.id == e.id);
  }

  lemma {:induction false} MarksCount(r: Rec, ms: seq<Event>, e: Event)
    ensures Times(MarkAll(r, ms).seen, e) <= Times(r.seen, e) + Count(ms, e)
    ensures InWindow(r, ms, [e]) ==> Times(MarkAll(r, ms).seen, e) == Times(r.seen, e) + Count(ms, e)
    ensures MarkAll(r, ms).hi >= r.hi
  {
    if ms != [] {
      var n := |ms| - 1;
      MarksCount(r, ms[..n], e);
      AddTimes(MarkAll(r, ms[..n]), ms[n], e);
      if InWindow(r, ms, [e]) {
        assert ms[n] in ms && e in [e];
        assert InWindow(r, ms[..n], [e]);
      }
    }
  }

  /** After any prefix of the missing events was sent and marked, with no window
      prune, `missing` on the same fetch returns exactly the remaining suffix. */
  lemma RetryIsExact(r: Rec, es: seq<Event>, j: nat)
    requires j <= |Missing(es, r.seen)|
    requires InWindow(r, es, es)
    ensures Missing(es, MarkAll(r, Missing(es, r.seen)[..j]).seen) == Missing(es, r.seen)[j..]
  {
    var out := Missing(es, r.seen);
    MissingInOrder(es, r.seen);
    forall e | e in es
      ensures Times(MarkAll(r, out[..j]).seen, e) == Times(r.seen, e) + Count(out[..j], e)
    {
      forall m, x | m in out[..j] && x in [e] && m.block > r.hi
        ensures m.block <= x.block + WINDOW
      {
        assert m in out;
        SubsequenceMembers(out, es, m);
      }
      MarksCount(r, out[..j], e);
    }
    RetryReturnsTheRest(es, r.seen, MarkAll(r, out[..j]).seen, j);
  }

  /** Pruning costs duplicates only: a retry never returns fewer than what is left. */
  lemma RetryNeverLoses(r: Rec, es: seq<Event>, j: nat, e: Event)
    requires j <= |Missing(es, r.seen)|
    ensures Count(Missing(es, MarkAll(r, Missing(es, r.seen)[..j]).seen), e) >= Count(Missing(es, r.seen)[j..], e)
  {
    var out := Missing(es, r.seen);
    var after := MarkAll(r, out[..j]).seen;
    MissingCount(es, r.seen, e);
    MissingCount(es, after, e);
    MarksCount(r, out[..j], e);
    PrefixCount(out, j, e);
  }

  ghost predicate Ascending(es: seq<Event>) {
    forall i, j | 0 <= i < j < |es| :: es[i].block <= es[j].block
  }

  lemma {:induction false} RaisedWindow(r: Rec, ms: seq<Event>)
    requires ms != [] && Ascending(ms) && ms[|ms| - 1].block > r.hi
    ensures MarkAll(r, ms).hi == ms[|ms| - 1].block
    ensures forall b | b in MarkAll(r, ms).seen :: b + WINDOW >= ms[|ms| - 1].block
  {
    var n := |ms| - 1;
    var before := MarkAll(r, ms[..n]);
    if ms[n].block <= before.hi {
      if n == 0 || ms[n - 1].block <= r.hi {
        LowMarks(r, ms[..n]);
        assert false;
      } else {
        RaisedWindow(r, ms[..n]);
      }
    }
  }

  lemma {:induction false} LowMarks(r: Rec, ms: seq<Event>)
    requires Ascending(ms) && (ms == [] || ms[|ms| - 1].block <= r.hi)
    ensures MarkAll(r, ms).hi == r.hi
  {
    if ms != [] {
      LowMarks(r, ms[..|ms| - 1]);
    }
  }

  lemma {:induction false} SubsequenceMembers(sub: seq<Event>, es: seq<Event>, e: Event)
    requires IsSubsequence(sub, es) && e in sub
    ensures e in es
  {
    var n := |es| - 1;
    if e != es[n] {
      if sub[|sub| - 1] == es[n] && IsSubsequence(sub[..|sub| - 1], es[..n]) {
        SubsequenceMembers(sub[..|sub| - 1], es[..n], e);
      } else {
        SubsequenceMembers(sub, es[..n], e);
      }
    }
  }

  lemma {:induction false} SubsequenceAscends(sub: seq<Event>, es: seq<Event>)
    requires IsSubsequence(sub, es) && Ascending(es)
    ensures Ascending(sub)
  {
    if sub != [] {
      var n, m := |es| - 1, |sub| - 1;
      if sub[m] == es[n] && IsSubsequence(sub[..m], es[..n]) {
        SubsequenceAscends(sub[..m], es[..n]);
        forall i, j | 0 <= i < j < |sub| ensures sub[i].block <= sub[j].block {
          if j == m {
            SubsequenceMembers(sub[..m], es[..n], sub[..m][i]);
          } else {
            assert sub[i] == sub[..m][i] && sub[j] == sub[..m][j];
          }
        }
      } else {
        SubsequenceAscends(sub, es[..n]);
      }
    }
  }

  /** A fully delivered fetch is found complete again exactly when its own marks stayed inside the window. */
  lemma FullRetryIsCleanIff(r: Rec, es: seq<Event>)
    requires Ascending(es)
    ensures Missing(es, MarkAll(r, Missing(es, r.seen)).seen) == [] <==> InWindow(r, Missing(es, r.seen), es)
  {
    var out := Missing(es, r.seen);
    var after := MarkAll(r, out).seen;
    NothingMissing(es, after);
    if InWindow(r, out, es) {
      forall e | e in es ensures Count(es, e) <= Times(after, e) {
        assert InWindow(r, out, [e]);
        MarksCount(r, out, e);
        MissingCount(es, r.seen, e);
      }
    } else {
      var m, e :| m in out && e in es && m.block > r.hi && m.block > e.block + WINDOW;
      MissingInOrder(es, r.seen);
      SubsequenceAscends(out, es);
      PrunedAfterMarks(r, out, m, e);
      CountPositive(es, e);
    }
  }

  lemma PrunedAfterMarks(r: Rec, ms: seq<Event>, m: Event, e: Event)
    requires Ascending(ms) && m in ms && m.block > r.hi && m.block > e.block + WINDOW
    ensures Times(MarkAll(r, ms).seen, e) == 0
  {
    assert m.block <= ms[|ms| - 1].block;
    RaisedWindow(r, ms);
  }

  /** Fetches of at most WINDOW + 1 blocks always qualify. */
  lemma ShortFetchIsInWindow(r: Rec, chain: Chain, lo: nat, hi: nat)
    requires WellFormed(chain) && hi <= lo + WINDOW + 1
    ensures InWindow(r, Range(chain, lo, hi), Range(chain, lo, hi))
  {
    var es := Range(chain, lo, hi);
    forall m, e | m in es && e in es && m.block > r.hi
      ensures m.block <= e.block + WINDOW
    {
      var i :| 0 <= i < |es| && es[i] == m;
      var j :| 0 <= j < |es| && es[j] == e;
      RangeBlocks(chain, lo, hi, i);
      RangeBlocks(chain, lo, hi, j);
    }
  }

  /** Outside the window a completed delivery is repeated. */
  lemma WindowPruneRedelivers(x: EventId, y: EventId)
    ensures var es := [Event(0, x), Event(2000, y)];
            Missing(es, MarkAll(FRESH, Missing(es, FRESH.seen)).seen) == [Event(0, x)]
  {
    var a, b := Event(0, x), Event(2000, y);
    assert [a, b][..1] == [a] && [a][..0] == [];
    assert Count([a], b) == 0;
    assert Missing([a], FRESH.seen) == [a];
    assert Missing([a, b], FRESH.seen) == [a, b];
    var r1 := FRESH.Add(a);
    assert MarkAll(FRESH, [a]) == r1;
    var r2 := r1.Add(b);
    assert MarkAll(FRESH, [a, b]) == r2;
    assert r2.seen.Keys == {2000};
    assert Missing([a], r2.seen) == [a];
  }
}
