/** What a promote gate reads (TransportStatus, streamLiveness, reserveStream,
    reserveBackfill) as a labelled state machine: any number of stream goroutines,
    registrations and background backfills, each counter an atomic of its own, and a
    reader that loads the three one after the other. */
module Liveness {

  /** A stream goroutine. `set` writes the goroutine's own flag first and the shared
      counter second, hence Raising and Lowering. */
  datatype Stream = Reserved | Off | Raising | Live | Lowering | Stopped | Gone

  datatype Progress = Counted | Running | Over | Released

  /** A registration with history to load; `shown` once it is tracked or seeded. */
  datatype Work = Work(shown: bool, progress: Progress) {
    /** Reads as covered while its history is still missing. */
    predicate Outstanding() {
      shown && (progress.Counted? || progress.Running?)
    }
  }

  datatype Reader =
    Idle | GotLive(live: int) | GotTotal(live: int, total: int) | Status(live: int, total: int, complete: bool)

  datatype State = State(streams: map<nat, Stream>, live: int, total: int, works: map<nat, Work>, pending: int,
                         reader: Reader) {
    /** TransportStatus's verdict, were the three loads one. */
    predicate Complete() {
      total > 0 && live == total && pending == 0
    }
  }

  datatype Step =
    | ReserveStream(s: nat)
    | Launch(s: nat)
    | SetLive(s: nat)
    | SetNotLive(s: nat)
    | Publish(s: nat)        // the counter's half of `set`
    | Stop(s: nat)
    | ReleaseStream(s: nat)
    | ReserveBackfill(w: nat)
    | Show(w: nat)
    | LaunchBackfill(w: nat)
    | EndBackfill(w: nat)    // finished, cancelled, or not needed after all
    | ReleaseBackfill(w: nat)
    | LoadLive
    | LoadTotal
    | LoadPending

  const INIT: State := State(map[], 0, 0, map[], 0, Idle)

  function Moved(s: State, id: nat, from: set<Stream>, to: Stream): State {
    if id in s.streams && s.streams[id] in from then s.(streams := s.streams[id := to]) else s
  }

  /** `early` off counts a stream when its goroutine runs, not when it is reserved. */
  function Next(s: State, step: Step, early: bool): State {
    match step
    case ReserveStream(id) =>
      if id in s.streams then s
      else s.(streams := s.streams[id := Reserved], total := if early then s.total + 1 else s.total)
    case Launch(id) =>
      var t := Moved(s, id, {Reserved}, Off);
      if t != s && !early then t.(total := t.total + 1) else t
    case SetLive(id) => Moved(s, id, {Off}, Raising)
    case SetNotLive(id) => Moved(s, id, {Live}, Lowering)
    case Publish(id) =>
      if id in s.streams && s.streams[id].Raising? then s.(streams := s.streams[id := Live], live := s.live + 1)
      else if id in s.streams && s.streams[id].Lowering? then s.(streams := s.streams[id := Off], live := s.live - 1)
      else s
    case Stop(id) => Moved(s, id, {Off}, Stopped)
    case ReleaseStream(id) =>
      if id in s.streams && s.streams[id].Stopped? then s.(streams := s.streams[id := Gone], total := s.total - 1)
          else s
    case ReserveBackfill(w) =>
      if w in s.works then s else s.(works := s.works[w := Work(false, Counted)], pending := s.pending + 1)
    case Show(w) =>
      if w in s.works then s.(works := s.works[w := s.works[w].(shown := true)]) else s
    case LaunchBackfill(w) =>
      if w in s.works && s.works[w].progress.Counted? then s.(works := s.works[w := s.works[w].(progress := Running)])
          else s
    case EndBackfill(w) =>
      if w in s.works && !s.works[w].progress.Released? then s.(works := s.works[w := s.works[w].(progress := Over)])
          else s
    case ReleaseBackfill(w) =>
      if w in s.works && s.works[w].progress.Over?
      then s.(works := s.works[w := s.works[w].(progress := Released)], pending := s.pending - 1) else s
    case LoadLive => s.(reader := GotLive(s.live))
    case LoadTotal => if s.reader.GotLive? then s.(reader := GotTotal(s.reader.live, s.total)) else s
    case LoadPending =>
      if !s.reader.GotTotal? then s
      else
        var r := s.reader;
        s.(reader := Status(r.live, r.total, r.total > 0 && r.live == r.total && s.pending == 0))
  }

  function Run(s: State, steps: seq<Step>): State {
    if steps == [] then s else Next(Run(s, steps[..|steps| - 1]), steps[|steps| - 1], true)
  }

  function Chosen<T>(m: map<nat, T>, p: T -> bool): set<nat> {
    set k | k in m && p(m[k])
  }

  function Tally<T>(m: map<nat, T>, p: T -> bool): nat {
    |Chosen(m, p)|
  }

  lemma TallyUpdate<T>(m: map<nat, T>, k: nat, v: T, p: T -> bool)
    ensures Tally(m[k := v], p) == Tally(m, p) - (if k in m && p(m[k]) then 1 else 0) + (if p(v) then 1 else 0)
  {
    var rest := Chosen(m, p) - {k};
    assert k !in rest;
    assert Chosen(m, p) == if k in m && p(m[k]) then rest + {k} else rest;
    assert Chosen(m[k := v], p) == if p(v) then rest + {k} else rest;
  }

  lemma TallyZero<T>(m: map<nat, T>, p: T -> bool)
    ensures Tally(m, p) == 0 <==> forall k | k in m :: !p(m[k])
  {
    var chosen := Chosen(m, p);
    if Tally(m, p) == 0 {
      assert forall k | k in m :: k !in chosen;
    } else {
      var k :| k in chosen;
    }
  }

  lemma TallySub<T>(m: map<nat, T>, p: T -> bool, q: T -> bool)
    requires forall k | k in m :: p(m[k]) ==> q(m[k])
    ensures Tally(m, p) <= Tally(m, q)
    ensures Tally(m, p) == Tally(m, q) <==> forall k | k in m :: q(m[k]) ==> p(m[k])
  {
    var a, b := Chosen(m, p), Chosen(m, q);
    assert (b - a) + a == b;
    if |a| == |b| {
      assert b - a == {};
      assert forall k | k in m && q(m[k]) :: k in b;
    }
    if forall k | k in m :: q(m[k]) ==> p(m[k]) {
      assert a == b;
    }
  }

  /** Holding a subscription, as far as the shared counter has been told. */
  predicate IsLive(s: Stream) {
    s.Live? || s.Lowering?
  }

  predicate IsReserved(s: Stream) {
    !s.Gone?
  }

  predicate IsPending(w: Work) {
    !w.progress.Released?
  }

  ghost predicate Exact(s: State) {
    && s.live == Tally(s.streams, IsLive)
    && s.total == Tally(s.streams, IsReserved)
    && s.pending == Tally(s.works, IsPending)
  }

  lemma StepKeepsExact(s: State, step: Step)
    requires Exact(s)
    ensures Exact(Next(s, step, true))
  {
    var t := Next(s, step, true);
    if t.streams != s.streams {
      TallyUpdate(s.streams, step.s, t.streams[step.s], IsLive);
      TallyUpdate(s.streams, step.s, t.streams[step.s], IsReserved);
    }
    if t.works != s.works {
      TallyUpdate(s.works, step.w, t.works[step.w], IsPending);
    }
  }

  /** In every interleaving the counters count exactly what they claim, and streamsLive
      never passes streamsTotal. */
  lemma {:induction false} CountersAreExact(steps: seq<Step>)
    ensures Exact(Run(INIT, steps)) && Run(INIT, steps).live <= Run(INIT, steps).total
  {
    if steps == [] {
      assert Tally(INIT.streams, IsLive) == Tally(INIT.streams, IsReserved) == Tally(INIT.works, IsPending) == 0;
    } else {
      CountersAreExact(steps[..|steps| - 1]);
      StepKeepsExact(Run(INIT, steps[..|steps| - 1]), steps[|steps| - 1]);
    }
    TallySub(Run(INIT, steps).streams, IsLive, IsReserved);
  }

  /** An atomic snapshot reads complete exactly when some stream is reserved, every
      reserved stream is live, and every backfill reservation was given back. */
  lemma CompleteIff(steps: seq<Step>)
    ensures var s := Run(INIT, steps);
            s.Complete() <==>
              && (exists k :: k in s.streams && IsReserved(s.streams[k]))
              && (forall k | k in s.streams && IsReserved(s.streams[k]) :: IsLive(s.streams[k]))
              && (forall w | w in s.works :: s.works[w].progress.Released?)
  {
    var s := Run(INIT, steps);
    CountersAreExact(steps);
    TallySub(s.streams, IsLive, IsReserved);
    TallyZero(s.streams, IsReserved);
    TallyZero(s.works, IsPending);
  }

  /** So nothing that reads as covered still lacks its history. */
  lemma CompleteMeansCovered(steps: seq<Step>)
    requires Run(INIT, steps).Complete()
    ensures var s := Run(INIT, steps);
            && (forall k | k in s.streams && IsReserved(s.streams[k]) :: IsLive(s.streams[k]))
            && (forall w | w in s.works :: !s.works[w].Outstanding())
  {
    CompleteIff(steps);
  }

  // ---- The real reader: three loads ------------------------------------------------

  ghost predicate Steady(steps: seq<Step>) {
    forall step | step in steps ::
        !step.ReserveStream? && !step.ReleaseStream? && !step.LoadLive? && !step.LoadTotal? && !step.LoadPending?
  }

  lemma {:induction false} TotalStays(s: State, steps: seq<Step>)
    requires Steady(steps)
    ensures Run(s, steps).total == s.total && Run(s, steps).reader == s.reader
  {
    if steps != [] {
      var n := |steps| - 1;
      assert steps[n] in steps;
      TotalStays(s, steps[..n]);
    }
  }

  ghost predicate AllLive(s: State) {
    forall k | k in s.streams && IsReserved(s.streams[k]) :: IsLive(s.streams[k])
  }

  /** Three loads with anything in between. A complete reading is always right about the
      backfills at the last load. About the streams at the first load it is right if and
      only if streamsTotal is the same at the second: a torn reading is one whose total
      moved in between. */
  lemma CompleteReadingIff(before: seq<Step>, between: seq<Step>, after: seq<Step>)
    requires forall step | step in between + after :: !step.LoadLive? && !step.LoadTotal? && !step.LoadPending?
    ensures var s0 := Run(INIT, before);
            var s1 := Run(Next(s0, LoadLive, true), between);
            var s2 := Run(Next(s1, LoadTotal, true), after);
            var s3 := Next(s2, LoadPending, true);
            && s3.reader.Status?
            && (s3.reader.complete ==> (AllLive(s0) <==> s1.total == s0.total))
            && (s3.reader.complete ==> forall w | w in s3.works :: !s3.works[w].Outstanding())
  {
    var s0 := Run(INIT, before);
    var l := Next(s0, LoadLive, true);
    var s1 := Run(l, between);
    var t := Next(s1, LoadTotal, true);
    var s2 := Run(t, after);
    CountersAreExact(before);
    TallySub(s0.streams, IsLive, IsReserved);
    forall step | step in between || step in after ensures !step.LoadLive? && !step.LoadTotal? && !step.LoadPending? {
      assert step in between + after;
    }
    ReaderWaits(l, between);
    ReaderWaits(t, after);
    ExactFrom(l, between);
    ExactFrom(t, after);
    TallyZero(s2.works, IsPending);
  }

  /** In particular if no stream is reserved or released between the first two loads. */
  lemma SteadyReadIsSound(before: seq<Step>, between: seq<Step>, after: seq<Step>)
    requires Steady(between)
    requires forall step | step in after :: !step.LoadLive? && !step.LoadTotal? && !step.LoadPending?
    ensures var s0 := Run(INIT, before);
            var r := Next(Run(Next(Run(Next(s0, LoadLive, true), between), LoadTotal, true), after), LoadPending,
                          true).reader;
            r.Status? && (r.complete ==> AllLive(s0))
  {
    forall step | step in between + after ensures !step.LoadLive? && !step.LoadTotal? && !step.LoadPending? {
      assert step in between || step in after;
    }
    CompleteReadingIff(before, between, after);
    TotalStays(Next(Run(INIT, before), LoadLive, true), between);
  }

  lemma {:induction false} ReaderWaits(s: State, steps: seq<Step>)
    requires forall step | step in steps :: !step.LoadLive? && !step.LoadTotal? && !step.LoadPending?
    ensures Run(s, steps).reader == s.reader
  {
    if steps != [] {
      var n := |steps| - 1;
      assert steps[n] in steps;
      ReaderWaits(s, steps[..n]);
    }
  }

  lemma {:induction false} ExactFrom(s: State, steps: seq<Step>)
    requires Exact(s)
    ensures Exact(Run(s, steps))
  {
    if steps != [] {
      ExactFrom(s, steps[..|steps| - 1]);
      StepKeepsExact(Run(s, steps[..|steps| - 1]), steps[|steps| - 1]);
    }
  }

  /** In general a reading can say complete although no instant was: stream 0 drops and
      stream 1, never live, is released while the reader is between its loads. */
  lemma TornReadHappens()
    ensures var s0 := Next(Next(Next(Next(INIT, ReserveStream(0), true), ReserveStream(1), true), Launch(0), true),
                           Launch(1), true);
            var s1 := Next(Next(Next(s0, SetLive(0), true), Publish(0), true), Stop(1), true);
            var s2 := Next(s1, LoadLive, true);
            var s3 := Next(s2, SetNotLive(0), true);
            var s4 := Next(s3, Publish(0), true);
            var s5 := Next(s4, ReleaseStream(1), true);
            var s6 := Next(s5, LoadTotal, true);
            var s7 := Next(s6, LoadPending, true);
            && s7.reader == Status(1, 1, true)
            && !s1.Complete() && !s2.Complete() && !s3.Complete() && !s4.Complete() && !s5.Complete() &&
               !s6.Complete() && !s7.Complete()
  {
  }

  /** Counting a stream only when its goroutine runs reads complete too early: stream 0
      is live while stream 1 was reserved but not scheduled. Counting first does not. */
  lemma CountingLateFails()
    ensures var late := Launched(false);
            late.Complete() && !IsLive(late.streams[1]) && !Launched(true).Complete()
  {
  }

  function Launched(early: bool): (s: State)
    ensures 1 in s.streams
  {
    var a := Next(Next(INIT, ReserveStream(0), early), ReserveStream(1), early);
    Next(Next(Next(a, Launch(0), early), SetLive(0), early), Publish(0), early)
  }
}
