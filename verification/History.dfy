/** Crash-safe history of one dynamic contract (markBackfill, persistContract,
    addSubscription, signalBackfillDone, completeBackfill, FreezeContract,
    DeregisterContract, resumeBackfills) over any number of runs, as a labelled state
    machine: the config on disk, the config in memory, the backfill goroutines, the
    live stream's own catch-up, the events channel and the engine's one event loop, with
    a crash possible anywhere. */
module History {
  import opened Wrappers

  /** `marker` is BackfillTo != 0: the history still has to be fetched. */
  datatype Config = Config(marker: bool, frozen: bool)

  /** A launched backfill and the events it has yet to send. A freeze's own backfill starts
      at the cursor, below which everything was taken, so it covers the history too. */
  datatype Job = Job(left: nat, signalled: bool, cancelled: bool)

  /** The history of a contract registered without a backfill, which its live stream
      catches up on: events the engine has yet to take, and the stream has yet to send. */
  datatype Stream = Stream(untaken: nat, unsent: nat, flowing: bool)

  /** In the channel: Event(0) is the live stream's, the others are backfills'. */
  datatype Message = Event(gen: nat) | Done(gen: nat)

  datatype Registration = Unregistered | Visible | Ready | Launched(gen: nat) | Checked(gen: nat)

  datatype State = State(
    disk: Option<Config>, mem: Option<Config>, persisting: Option<Config>,
    reg: Registration, haveStart: bool, loaded: bool, used: bool, stopping: bool,
    jobs: map<nat, Job>, issued: nat, tracked: Option<nat>, stream: Option<Stream>,
    channel: seq<Message>, signals: nat, clearing: bool, freezing: bool,
    halting: bool,   // a freeze has yet to stop the live stream
    early: bool,     // ... and found the marker still on, with nothing launched
    covered: bool,   // the engine took every event of the history
    cut: bool,       // an early freeze stopped the catch-up before it had sent everything
    spilled: bool)   // the run (or the contract) ended with a frozen, unmarked config on disk and history left to take

  datatype Step =
    | Restart(reconcileFrozen: bool, saved: bool, n: nat)
    | Register(saveFirst: bool, haveStart: bool)  // RegisterContract saves first, a factory child becomes visible first
    | Snapshot                        // persistContract, under persistMu ...
    | Save(ok: bool)                  // ... until the store write, which may fail
    | AddLaunch(n: nat)               // AddContract, with history to fetch
    | AddWithout(n: nat)              // AddContract without a backfill: the stream starts at the history's start
    | Check                           // addSubscription looks for a tracked backfill
    | LateCheck                       // the same, with the run's context already over
    | Signal                          // signalBackfillDone's goroutine
    | Send(gen: nat)
    | StreamSend
    | Finish(gen: nat)                // the in-band completion
    | Untrack(gen: nat)
    | Take                            // the event loop
    | Clear                           // the second half of completeBackfill
    | Freeze(caughtUp: bool)
    | FreezeLaunch(n: nat)
    | StopLive
    | Deregister(deleted: bool)
    | StopRun                         // the run's context ends, the event loop goes on
    | Crash

  // ---- The channel -----------------------------------------------------------------

  /** How often `m` is in the channel. */
  function Items(channel: seq<Message>, m: Message): nat {
    if channel == [] then 0 else (if channel[0] == m then 1 else 0) + Items(channel[1..], m)
  }

  /** No event of `g` is behind a completion that carries `d`. */
  predicate InOrder(channel: seq<Message>, d: nat, g: nat) {
    channel == [] ||
    ((channel[0] == Done(d) ==> Items(channel[1..], Event(g)) == 0) && InOrder(channel[1..], d, g))
  }

  lemma {:induction false} ItemsAppend(channel: seq<Message>, m: Message, x: Message)
    ensures Items(channel + [m], x) == Items(channel, x) + if m == x then 1 else 0
  {
    if channel == [] {
      assert [m][1..] == [];
    } else {
      assert (channel + [m])[1..] == channel[1..] + [m];
      ItemsAppend(channel[1..], m, x);
    }
  }

  lemma {:induction false} OrderAppend(channel: seq<Message>, m: Message, d: nat, g: nat)
    requires InOrder(channel, d, g) && (m == Event(g) ==> Items(channel, Done(d)) == 0)
    ensures InOrder(channel + [m], d, g)
  {
    if channel == [] {
      assert [m][1..] == [];
    } else {
      assert (channel + [m])[1..] == channel[1..] + [m];
      ItemsAppend(channel[1..], m, Event(g));
      OrderAppend(channel[1..], m, d, g);
    }
  }

  lemma {:induction false} OrderWithout(channel: seq<Message>, d: nat, g: nat)
    requires Items(channel, Done(d)) == 0
    ensures InOrder(channel, d, g)
  {
    if channel != [] {
      OrderWithout(channel[1..], d, g);
    }
  }

  lemma Appended(channel: seq<Message>, m: Message)
    ensures forall x :: Items(channel + [m], x) == Items(channel, x) + if m == x then 1 else 0
  {
    forall x ensures Items(channel + [m], x) == Items(channel, x) + if m == x then 1 else 0 {
      ItemsAppend(channel, m, x);
    }
  }

  const INIT: State := State(None, None, None, Unregistered, false, false, false, false, map[], 0, None, None, [], 0,
                             false, false, false, false, false, false, false)

  function Launch(s: State, n: nat): (t: State)
    ensures t.issued in t.jobs && t.jobs != map[] && t.stream == s.stream
  {
    var g := s.issued + 1;
    s.(issued := g, tracked := Some(g), jobs := Cancelled(s)[g := Job(n, false, false)])
  }

  function Cancelled(s: State): map<nat, Job> {
    if s.tracked.Some? && s.tracked.value in s.jobs
    then s.jobs[s.tracked.value := s.jobs[s.tracked.value].(cancelled := true)] else s.jobs
  }

  predicate Took(s: State, g: nat) {
    g in s.jobs && s.jobs[g].left == 0 && Items(s.channel, Event(g)) == 0
  }

  predicate CaughtUp(s: State) {
    s.stream.Some? && s.stream.value.untaken == 0
  }

  function Latch(s: State): State {
    s.(covered := s.covered || (s.mem.Some? && (CaughtUp(s) || exists g :: g in s.jobs && Took(s, g))))
  }

  /** A config that asks for nothing and brings no live stream back. */
  const SILENT: Option<Config> := Some(Config(false, true))

  function Spilled(s: State): bool {
    s.spilled || (s.stream.Some? && !s.covered && s.disk == SILENT)
  }

  function Halted(s: State): Option<Stream> {
    if s.stream.Some? then Some(s.stream.value.(flowing := false)) else None
  }

  /** setup, reconcileFrozenContracts and resumeBackfills. */
  function Restarted(s: State, reconcileFrozen: bool, saved: bool, n: nat): (t: State)
    ensures t.stream.None? <==> s.stream.None?
  {
    if s.disk.None? then s.(loaded := true)
    else
      var c := if reconcileFrozen && !s.disk.value.frozen then Config(true, true) else s.disk.value;
      var stream := if s.stream.Some? then Some(s.stream.value.(flowing := !c.frozen)) else None;
      var launch, g := c.marker && s.haveStart, s.issued + 1;
      s.(loaded := true, used := true, mem := Some(c), disk := if saved then Some(c) else s.disk, stream := stream,
         issued := if launch then g else s.issued, tracked := if launch then Some(g) else s.tracked,
         jobs := if launch then s.jobs[g := Job(n, false, false)] else s.jobs)
  }

  /** The event loop takes the head of the channel. */
  function Taken(s: State): State
    requires s.channel != []
  {
    var m := s.channel[0];
    var passes := m.Done? && s.mem.Some? && (s.tracked.None? || s.tracked.value == m.gen);
    var counts := m == Event(0) && s.mem.Some? && s.stream.Some? && s.stream.value.untaken > 0;
    s.(channel := s.channel[1..], clearing := s.clearing || passes,
       stream := if counts then Some(s.stream.value.(untaken := s.stream.value.untaken - 1)) else s.stream)
  }

  function Finished(s: State, g: nat): State
    requires g in s.jobs
  {
    s.(jobs := s.jobs[g := s.jobs[g].(signalled := true)], channel := s.channel + [Done(g)])
  }

  /** From a start or a registration to the launch. */
  predicate Registers(step: Step) {
    step.Restart? || step.Register? || step.Snapshot? || step.Save? || step.AddLaunch? || step.AddWithout?
    || step.Check? || step.LateCheck?
  }

  function Registering(s: State, step: Step): State
    requires Registers(step)
  {
    match step
    case Restart(reconcileFrozen, saved, n) => if s.loaded then s else Restarted(s, reconcileFrozen, saved, n)
    case Register(saveFirst, haveStart) =>
      if !s.loaded || s.used then s
      else
        var c := Some(Config(true, false));
        s.(used := true, mem := c, disk := if saveFirst then c else s.disk, reg := if saveFirst then Ready else Visible,
           haveStart := haveStart, stream := None, covered := false, cut := false, spilled := false)
    case Snapshot => if s.persisting.None? then s.(persisting := s.mem) else s
    case Save(ok) =>
      if s.persisting.None? then s
      else s.(disk := if ok then s.persisting else s.disk, persisting := None,
              reg := if s.reg.Visible? then Ready else s.reg)
    case AddLaunch(n) => if s.reg.Ready? then Launch(s, n).(reg := Launched(s.issued + 1)) else s
    case AddWithout(n) =>
      if !s.reg.Ready? then s
      else
        var history := if s.haveStart then n else 0;
        // a removed contract's stream reaches nobody
        s.(reg := Launched(0), stream := Some(Stream(history, history, s.mem.Some?)))
    case Check => if s.reg.Launched? && !s.stopping then Checking(s) else s
    case LateCheck => if s.reg.Launched? && s.stopping then Checking(s) else s
  }

  /** From the launch to the completion. */
  predicate Fetches(step: Step) {
    step.Signal? || step.Send? || step.StreamSend? || step.Finish? || step.Untrack? || step.Take? || step.Clear?
  }

  function Fetching(s: State, step: Step): State
    requires Fetches(step)
  {
    match step
    case Signal => if s.signals > 0 then s.(signals := s.signals - 1, channel := s.channel + [Done(0)]) else s
    case Send(g) =>
      if g in s.jobs && s.jobs[g].left > 0
      then s.(jobs := s.jobs[g := s.jobs[g].(left := s.jobs[g].left - 1)], channel := s.channel + [Event(g)]) else s
    case StreamSend =>
      if s.stream.Some? && s.stream.value.flowing && s.stream.value.unsent > 0
      then s.(stream := Some(s.stream.value.(unsent := s.stream.value.unsent - 1)),
              channel := s.channel + [Event(0)])
      else s
    case Finish(g) =>
      if g in s.jobs && s.jobs[g].left == 0 && !s.jobs[g].signalled then Finished(s, g) else s
    case Untrack(g) =>
      if g in s.jobs && (s.jobs[g].signalled || s.jobs[g].cancelled || s.stopping) && s.tracked == Some(g)
      then s.(tracked := None) else s
    case Take => if s.channel == [] || s.clearing then s else Taken(s)
    case Clear =>
      if !s.clearing then s
      else s.(clearing := false, mem := if s.mem.Some? then Some(s.mem.value.(marker := false)) else None)
  }

  /** A freeze, or an end of the contract or of the run. */
  function Ending(s: State, step: Step): State
    requires !Registers(step) && !Fetches(step)
  {
    match step
    case Freeze(caughtUp) =>
      if s.mem.None? || s.mem.value.frozen then s
      else if caughtUp && s.stream.Some? && s.stream.value.unsent > 0 then s // a stream that is behind is not live
      else
        var launch := !s.mem.value.marker && s.tracked.None? && !caughtUp && s.haveStart;
        var marker := s.mem.value.marker || s.tracked.Some? || launch;
        s.(mem := Some(Config(marker, true)), freezing := s.freezing || launch, halting := true,
           early := s.mem.value.marker && s.jobs == map[])
    case FreezeLaunch(n) => if s.freezing then Launch(s, n).(freezing := false) else s
    case StopLive =>
      if !s.halting then s
      else s.(halting := false, stream := Halted(s),
              cut := s.cut || (s.early && s.stream.Some? && s.stream.value.unsent > 0))
    case Deregister(deleted) =>
      if s.mem.None? || s.persisting.Some? then s
      else s.(mem := None, disk := if deleted then None else s.disk, jobs := Cancelled(s),
              stream := Halted(s), spilled := Spilled(s))
    case StopRun => s.(stopping := true)
    case Crash =>
      var stream := if s.stream.Some? then Some(Stream(s.stream.value.untaken, s.stream.value.untaken, false))
          else None;
      INIT.(disk := s.disk, haveStart := s.haveStart, stream := stream, covered := s.covered, cut := s.cut,
            spilled := Spilled(s))
  }

  function Act(s: State, step: Step): State {
    if Registers(step) then Registering(s, step) else if Fetches(step) then Fetching(s, step) else Ending(s, step)
  }

  function Checking(s: State): State
    requires s.reg.Launched?
  {
    s.(reg := Checked(s.reg.gen), signals := if s.tracked.None? then s.signals + 1 else s.signals)
  }

  function Next(s: State, step: Step): State {
    Latch(Act(s, step))
  }

  function Run(s: State, steps: seq<Step>): State {
    if steps == [] then s else Next(Run(s, steps[..|steps| - 1]), steps[|steps| - 1])
  }

  // ---- The invariant ---------------------------------------------------------------

  /** An unmarked config is safe if the history was taken, or the live stream's catch-up is
      under way (or all in the channel) or comes back at the next start. Otherwise the
      catch-up was cut or spilled. */
  ghost predicate Safe(c: Option<Config>, covered: bool, stream: Option<Stream>, lost: bool) {
    c.Some? && !c.value.marker && !covered ==>
      stream.Some? && (!c.value.frozen || stream.value.flowing || stream.value.unsent == 0 || lost)
  }

  /** Everything of backfill `g` is at least in the channel. */
  ghost predicate AllSent(s: State, g: nat) {
    g in s.jobs && s.jobs[g].left == 0
  }

  /** What a completion without a backfill waits for is before it. */
  ghost predicate SignalsInOrder(reg: Registration, channel: seq<Message>) {
    reg.Checked? ==> reg.gen > 0 && InOrder(channel, 0, reg.gen)
  }

  lemma SignalsAppend(reg: Registration, channel: seq<Message>, m: Message)
    requires SignalsInOrder(reg, channel)
    requires reg.Checked? && m == Event(reg.gen) ==> Items(channel, Done(0)) == 0
    ensures SignalsInOrder(reg, channel + [m])
    ensures Items(channel + [m], Done(0)) == Items(channel, Done(0)) + if m == Done(0) then 1 else 0
    ensures forall g :: Items(channel + [m], Event(g)) == Items(channel, Event(g)) + if m == Event(g) then 1 else 0
  {
    Appended(channel, m);
    if reg.Checked? {
      OrderAppend(channel, m, 0, reg.gen);
    }
  }

  /** How many completions signalBackfillDone has under way. */
  function Signals(s: State): nat {
    s.signals + Items(s.channel, Done(0))
  }

  ghost predicate Idle(s: State) {
    && s.mem.None? && s.persisting.None? && s.reg.Unregistered? && s.tracked.None?
    && s.jobs == map[] && s.channel == [] && s.signals == 0 && !s.clearing && !s.freezing && !s.halting && !s.early
    && (s.stream.Some? ==> !s.stream.value.flowing && s.stream.value.unsent == s.stream.value.untaken)
  }

  ghost predicate Configs(s: State) {
    && Safe(s.disk, s.covered, s.stream, s.cut || s.spilled)
    && Safe(s.mem, s.covered, s.stream, s.cut || s.spilled)
    && Safe(s.persisting, s.covered, s.stream, s.cut || s.spilled)
    && (s.mem.None? && s.stream.Some? ==> !s.stream.value.flowing)
    && (s.reg.Visible? || s.reg.Ready? ==> s.stream.None?)
    && (s.mem.Some? && !s.reg.Unregistered? ==> !s.spilled)
    && (s.stream.Some? && !s.haveStart ==> s.stream.value.untaken == 0)
    && (!s.loaded ==> Idle(s) && !s.used)
    && (s.loaded && !s.used ==> Idle(s) && s.disk.None?)
  }

  ghost predicate Jobs(s: State) {
    JobsIn(s.jobs, s.issued, s.tracked, s.channel)
  }

  ghost predicate JobsIn(jobs: map<nat, Job>, issued: nat, tracked: Option<nat>, channel: seq<Message>) {
    && (forall g | g in jobs :: 0 < g <= issued && (jobs[g].signalled ==> jobs[g].left == 0))
    && (tracked.Some? ==> tracked.value in jobs)
    && (forall m: Message | m.gen > 0 && Items(channel, m) > 0 :: m.gen in jobs && (m.Done? ==> jobs[m.gen].left == 0))
    && (forall g | g > 0 :: InOrder(channel, g, g))
  }

  /** Configs copied from memory, at most as far as memory is now. */
  ghost predicate Behind(s: State, c: Option<Config>)
    requires s.mem.Some?
  {
    c.Some? && c.value.frozen ==> s.mem.value.frozen && (!c.value.marker ==> !s.mem.value.marker)
  }

  /** Before AddContract. */
  ghost predicate Untouched(s: State)
    requires s.mem.Some?
  {
    && s.jobs == map[] && s.channel == [] && s.signals == 0 && s.mem.value.marker
    && (s.disk.Some? ==> s.disk.value.marker) && (s.persisting.Some? ==> s.persisting.value.marker)
    && Behind(s, s.disk) && Behind(s, s.persisting)
    && (s.halting ==> s.early) && (s.early ==> s.mem.value.frozen) && (!s.mem.value.frozen ==> !s.halting)
    && !s.cut && !s.spilled
  }

  /** What a running contract owes until its history is in, if its registration launched a backfill. */
  ghost predicate Owed(s: State) {
    s.mem.Some? && !s.covered && s.stream.None? ==>
      && !s.clearing && !s.freezing
      && (forall g | g in s.jobs :: !s.jobs[g].cancelled)
      && (s.reg.Visible? || s.reg.Ready? ==> Untouched(s))
      && (s.reg.Launched? ==> s.jobs.Keys == {s.reg.gen} && Signals(s) == 0
                              && (s.stopping || s.tracked == Some(s.reg.gen) || AllSent(s, s.reg.gen)))
      && (s.reg.Unregistered? ==> Signals(s) == 0)
      && SignalsInOrder(s.reg, s.channel) && (s.reg.Checked? && Signals(s) > 0 ==> AllSent(s, s.reg.gen))
  }

  /** The same if it launched none. */
  ghost predicate Flows(s: State) {
    s.mem.Some? && !s.covered && s.stream.Some? ==>
      var st, c := s.stream.value, s.mem.value;
      var fetching := s.jobs != map[] || s.freezing;
      && st.untaken == st.unsent + Items(s.channel, Event(0))
      && (forall g | g in s.jobs :: !s.jobs[g].cancelled)
      && (fetching ==> c.marker && Signals(s) == 0 && !s.clearing)
      && (s.freezing ==> s.jobs == map[] && c.frozen)
      && (s.reg.Unregistered? || (s.reg in {Launched(0), Checked(0)}))
      && (s.reg.Launched? ==> c.marker && !fetching && Signals(s) == 0 && !s.clearing)
      && (s.reg.Unregistered? ==> Signals(s) == 0 && !s.clearing && !s.early && (c.marker ==> fetching || !s.haveStart))
      && (s.reg.Checked? && c.marker ==> Signals(s) > 0 || s.clearing || fetching)
      && (Signals(s) > 0 || s.clearing ==> c.marker)
      && Signals(s) + (if s.clearing then 1 else 0) <= 1
      && (s.early ==> c.frozen && !fetching)
      && (s.halting ==> c.frozen && (s.early || fetching || st.unsent == 0))
      && (c.frozen && !st.flowing && st.unsent > 0 ==> s.cut || s.spilled || fetching)
      && (!c.frozen ==> st.flowing && !s.halting)
      && (s.cut && !s.reg.Unregistered? ==> c.frozen && !fetching && !st.flowing && st.unsent > 0)
      && Behind(s, s.disk) && Behind(s, s.persisting)
  }

  /** In the run of its registration, whether or not its history is in. */
  ghost predicate Open(s: State) {
    && (s.mem.Some? && (s.reg.Visible? || s.reg.Ready?) ==>
          !s.covered && !s.cut && !s.freezing && s.jobs == map[] && Items(s.channel, Event(0)) == 0)
    && (s.mem.Some? && (s.reg == Launched(0) || s.reg == Checked(0)) ==> s.stream.Some?)
    && (s.mem.Some? && s.stream.Some? && !s.reg.Unregistered? ==>
         var st := s.stream.value;
         && st.untaken == st.unsent + Items(s.channel, Event(0))
         && (s.freezing ==> s.mem.value.frozen)
         && (s.early || s.cut ==> s.jobs == map[] && !s.freezing)
         && (s.cut ==> st.unsent > 0 && !st.flowing)
         && (s.covered && s.jobs == map[] ==> st.untaken == 0))
  }

  ghost predicate Acted(s: State) {
    Configs(s) && Jobs(s) && Owed(s) && Flows(s) && Open(s)
  }

  ghost predicate Invariant(s: State) {
    && Acted(s)
    && (s.mem.Some? && !s.covered ==> !CaughtUp(s) && forall g | g in s.jobs :: !Took(s, g))
  }

  lemma SentIn(jobs: map<nat, Job>, issued: nat, tracked: Option<nat>, channel: seq<Message>, g: nat)
    requires JobsIn(jobs, issued, tracked, channel) && g in jobs && jobs[g].left > 0
    ensures JobsIn(jobs[g := jobs[g].(left := jobs[g].left - 1)], issued, tracked, channel + [Event(g)])
  {
    Appended(channel, Event(g));
    forall h | h > 0 ensures InOrder(channel + [Event(g)], h, h) {
      assert Items(channel, Done(g)) == 0;
      OrderAppend(channel, Event(g), h, h);
    }
  }

  lemma OtherSentIn(jobs: map<nat, Job>, issued: nat, tracked: Option<nat>, channel: seq<Message>, m: Message)
    requires JobsIn(jobs, issued, tracked, channel) && m.gen == 0
    ensures JobsIn(jobs, issued, tracked, channel + [m])
  {
    Appended(channel, m);
    forall h | h > 0 ensures InOrder(channel + [m], h, h) {
      OrderAppend(channel, m, h, h);
    }
  }

  lemma FinishedIn(jobs: map<nat, Job>, issued: nat, tracked: Option<nat>, channel: seq<Message>, g: nat)
    requires JobsIn(jobs, issued, tracked, channel) && g in jobs && jobs[g].left == 0
    ensures JobsIn(jobs[g := jobs[g].(signalled := true)], issued, tracked, channel + [Done(g)])
  {
    Appended(channel, Done(g));
    forall h | h > 0 ensures InOrder(channel + [Done(g)], h, h) {
      OrderAppend(channel, Done(g), h, h);
    }
  }

  lemma TakenIn(jobs: map<nat, Job>, issued: nat, tracked: Option<nat>, channel: seq<Message>)
    requires JobsIn(jobs, issued, tracked, channel) && channel != []
    ensures JobsIn(jobs, issued, tracked, channel[1..])
  {
    forall m: Message | m.gen > 0 && Items(channel[1..], m) > 0
        ensures m.gen in jobs && (m.Done? ==> jobs[m.gen].left == 0) {
      assert Items(channel, m) > 0;
    }
    forall g | g > 0 ensures InOrder(channel[1..], g, g) {
      assert InOrder(channel, g, g);
    }
  }

  /** A completion at the head means everything of its backfill was taken. */
  lemma CompletionTook(s: State)
    requires Jobs(s) && s.channel != [] && s.channel[0].Done? && s.channel[0].gen > 0
    ensures Took(s, s.channel[0].gen)
  {
    var g := s.channel[0].gen;
    assert Items(s.channel, Done(g)) > 0 && InOrder(s.channel, g, g);
  }

  lemma SignalTook(s: State)
    requires Owed(s) && s.mem.Some? && !s.covered && s.stream.None? && s.channel != [] && s.channel[0] == Done(0)
    ensures Took(s, if s.reg.Checked? then s.reg.gen else 0)
  {
    assert Items(s.channel, Done(0)) > 0;
    if s.reg.Checked? {
      assert InOrder(s.channel, 0, s.reg.gen);
    }
  }

  /** Until the history is in, the only completion that can be taken is the one that was
      signalled without a backfill. */
  lemma HeadIsNoCompletion(s: State)
    requires Invariant(s) && s.mem.Some? && !s.covered && s.channel != []
    ensures s.channel[0].Done? ==> s.channel[0].gen == 0 && s.stream.Some?
  {
    if s.channel[0].Done? {
      if s.channel[0].gen > 0 {
        CompletionTook(s);
      } else if s.stream.None? {
        SignalTook(s);
      }
    }
  }

  lemma RestartKeepsConfigs(s: State, step: Step)
    requires Configs(s) && step.Restart?
    ensures Configs(Registering(s, step))
  {
    if !s.loaded && s.disk.Some? {
      var t := Restarted(s, step.reconcileFrozen, step.saved, step.n);
      assert t.mem.Some? && t.loaded && t.used && t.persisting.None? && t.reg.Unregistered?;
      assert t.mem.value.marker ==> t.disk == s.disk || t.disk == t.mem;
    }
  }

  lemma RestartKeepsJobs(s: State, step: Step)
    requires Configs(s) && Jobs(s) && step.Restart?
    ensures Jobs(Registering(s, step))
  {
  }

  lemma RestartKeepsOwed(s: State, step: Step)
    requires Configs(s) && Jobs(s) && Owed(s) && step.Restart?
    ensures Owed(Registering(s, step))
  {
  }

  lemma RestartKeepsFlows(s: State, step: Step)
    requires Configs(s) && Jobs(s) && Flows(s) && step.Restart?
    ensures Flows(Registering(s, step))
  {
    if !s.loaded && s.disk.Some? {
      var t := Restarted(s, step.reconcileFrozen, step.saved, step.n);
      assert t.mem.value.marker && s.haveStart ==> s.issued + 1 in t.jobs;
    }
  }

  lemma RestartKeepsOpen(s: State, step: Step)
    requires Configs(s) && Jobs(s) && Open(s) && step.Restart?
    ensures Open(Registering(s, step))
  {
  }

  lemma RegisterKeeps(s: State, step: Step)
    requires Invariant(s) && step.Register?
    ensures Acted(Registering(s, step))
  {
  }

  lemma SnapshotKeeps(s: State, step: Step)
    requires Invariant(s) && step.Snapshot?
    ensures Acted(Registering(s, step))
  {
  }

  lemma SaveKeeps(s: State, step: Step)
    requires Invariant(s) && step.Save?
    ensures Acted(Registering(s, step))
  {
  }

  lemma AddLaunchKeeps(s: State, step: Step)
    requires Invariant(s) && step.AddLaunch?
    ensures Acted(Registering(s, step))
  {
  }

  lemma AddWithoutKeeps(s: State, step: Step)
    requires Invariant(s) && step.AddWithout?
    ensures Acted(Registering(s, step))
  {
  }

  lemma CheckKeepsConfigs(s: State, step: Step)
    requires Invariant(s) && step.Check?
    ensures Configs(Registering(s, step))
  {
  }

  lemma CheckKeepsJobs(s: State, step: Step)
    requires Configs(s) && Jobs(s) && step.Check?
    ensures Jobs(Registering(s, step))
  {
  }

  lemma CheckKeepsOwed(s: State, step: Step)
    requires Invariant(s) && step.Check?
    ensures Owed(Registering(s, step))
  {
    if s.reg.Launched? && s.mem.Some? && !s.covered && s.stream.None? {
      OrderWithout(s.channel, 0, s.reg.gen);
    }
  }

  lemma CheckKeepsFlows(s: State, step: Step)
    requires Invariant(s) && step.Check?
    ensures Flows(Registering(s, step))
  {
  }

  lemma CheckKeepsOpen(s: State, step: Step)
    requires Configs(s) && Jobs(s) && Open(s) && step.Check?
    ensures Open(Registering(s, step))
  {
  }

  /** Backfills got further, and one did if there were any. */
  ghost predicate Further(was: map<nat, Job>, now: map<nat, Job>) {
    was.Keys == now.Keys && forall g | g in was :: now[g].cancelled == was[g].cancelled && now[g].left <= was[g].left
  }

  lemma QueuedOwed(s: State, jobs: map<nat, Job>, channel: seq<Message>, signals: nat)
    requires Owed(s) && Further(s.jobs, jobs) && (s.signals > 0 || s.jobs != map[])
    requires s.mem.Some? && !s.covered && s.stream.None? ==>
               SignalsInOrder(s.reg, channel) && signals + Items(channel, Done(0)) == Signals(s)
    ensures Owed(s.(jobs := jobs, channel := channel, signals := signals))
  {
  }

  lemma QueuedFlows(s: State, jobs: map<nat, Job>, channel: seq<Message>, signals: nat)
    requires Flows(s) && Further(s.jobs, jobs)
    requires signals + Items(channel, Done(0)) == Signals(s) && Items(channel, Event(0)) == Items(s.channel, Event(0))
    ensures Flows(s.(jobs := jobs, channel := channel, signals := signals))
  {
  }

  lemma QueuedOpen(s: State, jobs: map<nat, Job>, channel: seq<Message>, signals: nat)
    requires Open(s) && Further(s.jobs, jobs) && Items(channel, Event(0)) == Items(s.channel, Event(0))
    ensures Open(s.(jobs := jobs, channel := channel, signals := signals))
  {
  }

  /** A message that is not the live stream's enters the channel. */
  lemma Queued(s: State, jobs: map<nat, Job>, m: Message, signals: nat)
    requires Owed(s) && Flows(s) && Open(s) && Further(s.jobs, jobs) && (s.signals > 0 || s.jobs != map[])
    requires m != Event(0) && signals == s.signals - (if m == Done(0) then 1 else 0)
    requires s.reg.Checked? && m == Event(s.reg.gen) ==>
             Items(s.channel, Done(0)) == 0 || s.mem.None? || s.covered || s.stream.Some?
    ensures var t := s.(jobs := jobs, channel := s.channel + [m], signals := signals); Owed(t) && Flows(t) && Open(t)
  {
    if s.mem.Some? && !s.covered && s.stream.None? {
      SignalsAppend(s.reg, s.channel, m);
    }
    Appended(s.channel, m);
    QueuedOwed(s, jobs, s.channel + [m], signals);
    QueuedFlows(s, jobs, s.channel + [m], signals);
    QueuedOpen(s, jobs, s.channel + [m], signals);
  }

  lemma SignalKeepsConfigs(s: State, step: Step)
    requires Configs(s) && step.Signal?
    ensures Configs(Fetching(s, step))
  {
  }

  lemma SignalKeepsJobs(s: State, step: Step)
    requires Configs(s) && Jobs(s) && step.Signal?
    ensures Jobs(Fetching(s, step))
  {
    if s.signals > 0 {
      OtherSentIn(s.jobs, s.issued, s.tracked, s.channel, Done(0));
    }
  }

  lemma SignalKeepsRest(s: State, step: Step)
    requires Acted(s) && step.Signal?
    ensures var t := Fetching(s, step); Owed(t) && Flows(t) && Open(t)
  {
    if s.signals > 0 {
      Queued(s, s.jobs, Done(0), s.signals - 1);
    }
  }

  lemma SendKeepsConfigs(s: State, step: Step)
    requires Configs(s) && step.Send?
    ensures Configs(Fetching(s, step))
  {
  }

  lemma SendKeepsJobs(s: State, step: Step)
    requires Configs(s) && Jobs(s) && step.Send?
    ensures Jobs(Fetching(s, step))
  {
    if step.gen in s.jobs && s.jobs[step.gen].left > 0 {
      SentIn(s.jobs, s.issued, s.tracked, s.channel, step.gen);
    }
  }

  lemma SendKeepsRest(s: State, step: Step)
    requires Acted(s) && step.Send?
    ensures var t := Fetching(s, step); Owed(t) && Flows(t) && Open(t)
  {
    var g := step.gen;
    if g in s.jobs && s.jobs[g].left > 0 {
      Queued(s, s.jobs[g := s.jobs[g].(left := s.jobs[g].left - 1)], Event(g), s.signals);
    }
  }

  lemma StreamSendKeepsConfigs(s: State, step: Step)
    requires Invariant(s) && step.StreamSend?
    ensures Configs(Fetching(s, step))
  {
  }

  lemma StreamSendKeepsJobs(s: State, step: Step)
    requires Configs(s) && Jobs(s) && step.StreamSend?
    ensures Jobs(Fetching(s, step))
  {
    if s.stream.Some? && s.stream.value.flowing && s.stream.value.unsent > 0 {
      OtherSentIn(s.jobs, s.issued, s.tracked, s.channel, Event(0));
    }
  }

  lemma StreamSendKeepsOwed(s: State, step: Step)
    requires Invariant(s) && step.StreamSend?
    ensures Owed(Fetching(s, step))
  {
  }

  lemma StreamSendKeepsFlows(s: State, step: Step)
    requires Invariant(s) && step.StreamSend?
    ensures Flows(Fetching(s, step))
  {
    Appended(s.channel, Event(0));
  }

  lemma StreamSendKeepsOpen(s: State, step: Step)
    requires Configs(s) && Jobs(s) && Open(s) && step.StreamSend?
    ensures Open(Fetching(s, step))
  {
    Appended(s.channel, Event(0));
  }

  lemma FinishKeepsConfigs(s: State, step: Step)
    requires Configs(s) && step.Finish?
    ensures Configs(Fetching(s, step))
  {
  }

  lemma FinishKeepsJobs(s: State, step: Step)
    requires Configs(s) && Jobs(s) && step.Finish?
    ensures Jobs(Fetching(s, step))
  {
    if step.gen in s.jobs && s.jobs[step.gen].left == 0 && !s.jobs[step.gen].signalled {
      FinishedIn(s.jobs, s.issued, s.tracked, s.channel, step.gen);
    }
  }

  lemma FinishKeepsRest(s: State, step: Step)
    requires Acted(s) && step.Finish?
    ensures var t := Fetching(s, step); Owed(t) && Flows(t) && Open(t)
  {
    var g := step.gen;
    if g in s.jobs && s.jobs[g].left == 0 && !s.jobs[g].signalled {
      Queued(s, s.jobs[g := s.jobs[g].(signalled := true)], Done(g), s.signals);
    }
  }

  lemma UntrackKeeps(s: State, step: Step)
    requires Invariant(s) && step.Untrack?
    ensures Acted(Fetching(s, step))
  {
  }

  lemma TakeKeepsConfigs(s: State, step: Step)
    requires Configs(s) && step.Take?
    ensures Configs(Fetching(s, step))
  {
  }

  lemma TakeKeepsJobs(s: State, step: Step)
    requires Configs(s) && Jobs(s) && step.Take?
    ensures Jobs(Fetching(s, step))
  {
    if s.channel != [] && !s.clearing {
      TakenIn(s.jobs, s.issued, s.tracked, s.channel);
    }
  }

  lemma TakeKeepsOwed(s: State, step: Step)
    requires Invariant(s) && step.Take?
    ensures Owed(Fetching(s, step))
  {
    if s.mem.Some? && !s.covered && s.channel != [] {
      HeadIsNoCompletion(s);
    }
  }

  lemma TakeKeepsFlows(s: State, step: Step)
    requires Invariant(s) && step.Take?
    ensures Flows(Fetching(s, step))
  {
    if s.mem.Some? && !s.covered && s.channel != [] {
      HeadIsNoCompletion(s);
    }
  }

  lemma TakeKeepsOpen(s: State, step: Step)
    requires Configs(s) && Jobs(s) && Open(s) && step.Take?
    ensures Open(Fetching(s, step))
  {
  }

  lemma ClearKeeps(s: State, step: Step)
    requires Invariant(s) && step.Clear?
    ensures Acted(Fetching(s, step))
  {
  }

  lemma FreezeKeeps(s: State, step: Step)
    requires Invariant(s) && step.Freeze?
    ensures Acted(Ending(s, step))
  {
  }

  lemma FreezeLaunchKeeps(s: State, step: Step)
    requires Invariant(s) && step.FreezeLaunch?
    ensures Acted(Ending(s, step))
  {
  }

  lemma StopLiveKeeps(s: State, step: Step)
    requires Invariant(s) && step.StopLive?
    ensures Acted(Ending(s, step))
  {
  }

  lemma DeregisterKeeps(s: State, step: Step)
    requires Invariant(s) && step.Deregister?
    ensures Acted(Ending(s, step))
  {
  }

  lemma StoppedKeeps(s: State)
    requires Invariant(s)
    ensures Acted(s.(stopping := true))
  {
  }

  lemma StopRunKeeps(s: State, step: Step)
    requires Invariant(s) && step.StopRun?
    ensures Acted(Ending(s, step))
  {
    StoppedKeeps(s);
  }

  lemma CrashKeeps(s: State, step: Step)
    requires Invariant(s) && step.Crash?
    ensures Acted(Ending(s, step))
  {
  }

  lemma RestartKeeps(s: State, step: Step)
    requires Invariant(s) && step.Restart?
    ensures Acted(Registering(s, step))
  {
    RestartKeepsConfigs(s, step);
    RestartKeepsJobs(s, step);
    RestartKeepsOwed(s, step);
    RestartKeepsFlows(s, step);
    RestartKeepsOpen(s, step);
  }

  lemma CheckKeeps(s: State, step: Step)
    requires Invariant(s) && step.Check?
    ensures Acted(Registering(s, step))
  {
    CheckKeepsConfigs(s, step);
    CheckKeepsJobs(s, step);
    CheckKeepsOwed(s, step);
    CheckKeepsFlows(s, step);
    CheckKeepsOpen(s, step);
  }

  lemma SignalKeeps(s: State, step: Step)
    requires Invariant(s) && step.Signal?
    ensures Acted(Fetching(s, step))
  {
    SignalKeepsConfigs(s, step);
    SignalKeepsJobs(s, step);
    SignalKeepsRest(s, step);
  }

  lemma SendKeeps(s: State, step: Step)
    requires Invariant(s) && step.Send?
    ensures Acted(Fetching(s, step))
  {
    SendKeepsConfigs(s, step);
    SendKeepsJobs(s, step);
    SendKeepsRest(s, step);
  }

  lemma StreamSendKeeps(s: State, step: Step)
    requires Invariant(s) && step.StreamSend?
    ensures Acted(Fetching(s, step))
  {
    StreamSendKeepsConfigs(s, step);
    StreamSendKeepsJobs(s, step);
    StreamSendKeepsOwed(s, step);
    StreamSendKeepsFlows(s, step);
    StreamSendKeepsOpen(s, step);
  }

  lemma FinishKeeps(s: State, step: Step)
    requires Invariant(s) && step.Finish?
    ensures Acted(Fetching(s, step))
  {
    FinishKeepsConfigs(s, step);
    FinishKeepsJobs(s, step);
    FinishKeepsRest(s, step);
  }

  lemma TakeKeeps(s: State, step: Step)
    requires Invariant(s) && step.Take?
    ensures Acted(Fetching(s, step))
  {
    TakeKeepsConfigs(s, step);
    TakeKeepsJobs(s, step);
    TakeKeepsOwed(s, step);
    TakeKeepsFlows(s, step);
    TakeKeepsOpen(s, step);
  }

  lemma RegistrationKeeps(s: State, step: Step)
    requires Invariant(s) && Registers(step) && !step.LateCheck?
    ensures Acted(Registering(s, step))
  {
    match step
    case Restart(_, _, _) => RestartKeeps(s, step);
    case Register(_, _) => RegisterKeeps(s, step);
    case Snapshot => SnapshotKeeps(s, step);
    case Save(_) => SaveKeeps(s, step);
    case AddLaunch(_) => AddLaunchKeeps(s, step);
    case AddWithout(_) => AddWithoutKeeps(s, step);
    case Check => CheckKeeps(s, step);
  }

  lemma FetchingKeeps(s: State, step: Step)
    requires Invariant(s) && Fetches(step)
    ensures Acted(Fetching(s, step))
  {
    match step
    case Signal => SignalKeeps(s, step);
    case Send(_) => SendKeeps(s, step);
    case StreamSend => StreamSendKeeps(s, step);
    case Finish(_) => FinishKeeps(s, step);
    case Untrack(_) => UntrackKeeps(s, step);
    case Take => TakeKeeps(s, step);
    case Clear => ClearKeeps(s, step);
  }

  lemma ActKeeps(s: State, step: Step)
    requires Invariant(s) && !step.LateCheck?
    ensures Acted(Act(s, step))
  {
    if Registers(step) {
      RegistrationKeeps(s, step);
    } else if Fetches(step) {
      FetchingKeeps(s, step);
    } else {
      match step
      case Freeze(_) => FreezeKeeps(s, step);
      case FreezeLaunch(_) => FreezeLaunchKeeps(s, step);
      case StopLive => StopLiveKeeps(s, step);
      case Deregister(_) => DeregisterKeeps(s, step);
      case StopRun => StopRunKeeps(s, step);
      case Crash => CrashKeeps(s, step);
    }
  }

  lemma LatchKeeps(s: State)
    requires Acted(s)
    ensures Invariant(Latch(s))
  {
    var t := Latch(s);
    if t.mem.Some? && !t.covered {
      forall g | g in t.jobs ensures !Took(t, g) {
        assert Took(s, g) == Took(t, g);
      }
    }
  }

  lemma StepKeepsInvariant(s: State, step: Step)
    requires Invariant(s) && !step.LateCheck?
    ensures Invariant(Next(s, step))
  {
    ActKeeps(s, step);
    LatchKeeps(Act(s, step));
  }

  lemma {:induction false} InvariantLasts(s: State, steps: seq<Step>)
    requires Invariant(s) && forall step | step in steps :: !step.LateCheck?
    ensures Invariant(Run(s, steps))
  {
    if steps != [] {
      var n := |steps| - 1;
      assert steps[n] in steps;
      InvariantLasts(s, steps[..n]);
      StepKeepsInvariant(Run(s, steps[..n]), steps[n]);
    }
  }

  lemma InvariantHolds(steps: seq<Step>)
    requires forall step | step in steps :: !step.LateCheck?
    ensures Invariant(Run(INIT, steps))
  {
    InvariantLasts(INIT, steps);
  }

  // ---- With a launched backfill --------------------------------------------------------

  lemma RestartsWithoutStream(s: State, step: Step)
    requires s.stream.None? && step.Restart?
    ensures Registering(s, step).stream.None?
  {
  }

  lemma RegistersWithoutStream(s: State, step: Step)
    requires s.stream.None? && Registers(step) && !step.AddWithout?
    ensures Registering(s, step).stream.None?
  {
    match step
    case Restart(_, _, _) => RestartsWithoutStream(s, step);
    case Register(_, _) =>
    case Snapshot =>
    case Save(_) =>
    case AddLaunch(_) =>
    case Check =>
    case LateCheck =>
  }

  lemma FetchesWithoutStream(s: State, step: Step)
    requires s.stream.None? && Fetches(step)
    ensures Fetching(s, step).stream.None?
  {
    match step
    case Signal =>
    case Send(_) =>
    case StreamSend =>
    case Finish(_) =>
    case Untrack(_) =>
    case Take =>
    case Clear =>
  }

  lemma EndsWithoutStream(s: State, step: Step)
    requires s.stream.None? && !Registers(step) && !Fetches(step)
    ensures Ending(s, step).stream.None?
  {
    match step
    case Freeze(_) =>
    case FreezeLaunch(_) =>
    case StopLive =>
    case Deregister(_) =>
    case StopRun =>
    case Crash =>
  }

  /** Only AddWithout starts a catch-up. */
  lemma ActsWithoutStream(s: State, step: Step)
    requires s.stream.None? && !step.AddWithout?
    ensures Act(s, step).stream.None?
  {
    if Registers(step) {
      RegistersWithoutStream(s, step);
    } else if Fetches(step) {
      FetchesWithoutStream(s, step);
    } else {
      EndsWithoutStream(s, step);
    }
  }

  lemma {:induction false} NoStream(s: State, steps: seq<Step>)
    requires s.stream.None? && forall step | step in steps :: !step.AddWithout?
    ensures Run(s, steps).stream.None?
  {
    if steps != [] {
      var n := |steps| - 1;
      assert steps[n] in steps;
      NoStream(s, steps[..n]);
      ActsWithoutStream(Run(s, steps[..n]), steps[n]);
    }
  }

  /** In every interleaving of any number of runs in which each registration launched a
      backfill and looked for it before its run's context ended: whenever the config on
      disk says nothing is left to fetch, the engine has taken every event of a backfill
      covering the history. */
  lemma HistoryIsCrashSafe(steps: seq<Step>)
    requires forall step | step in steps :: !step.AddWithout? && !step.LateCheck?
    ensures var s := Run(INIT, steps);
            s.disk.Some? ==> s.disk.value.marker || s.covered
  {
    NoStream(INIT, steps);
    InvariantHolds(steps);
  }

  /** A look that comes after the run's context ended keeps the invariant where there is
      nothing left to lose, or the backfill is still tracked or had sent everything. */
  lemma HarmlessLook(s: State)
    requires Invariant(s) && s.reg.Launched? && s.stopping && s.stream.None?
    requires s.mem.None? || s.covered || s.tracked.Some? || AllSent(s, s.reg.gen)
    ensures Invariant(Next(s, LateCheck))
  {
    LookIsChecking(s);
    LookKeepsConfigs(s);
    if s.mem.Some? && !s.covered {
      LookIsOwed(s);
      LookLatches(s);
      LookInvariant(Checking(s));
    }
  }

  lemma LookIsChecking(s: State)
    requires s.reg.Launched? && s.stopping
    ensures Next(s, LateCheck) == Latch(Checking(s))
  {
  }

  lemma LookInvariant(s: State)
    requires Configs(s) && Jobs(s) && Owed(s) && s.stream.None? && (s.reg.Checked? && s.reg.gen > 0)
    requires s.mem.Some? && !s.covered && Latch(s) == s
    ensures Invariant(s)
  {
  }

  lemma LookKeepsConfigs(s: State)
    requires Configs(s) && Jobs(s) && s.reg.Launched? && s.stream.None?
    requires s.reg.gen > 0 || s.mem.None?
    ensures Configs(Checking(s)) && Jobs(Checking(s))
    ensures s.mem.None? || s.covered ==> Invariant(Latch(Checking(s)))
  {
  }

  lemma LookLatches(s: State)
    requires Invariant(s) && s.reg.Launched? && s.mem.Some? && !s.covered
    ensures Latch(Checking(s)) == Checking(s)
  {
    assert forall g | g in s.jobs :: Took(Checking(s), g) == Took(s, g);
  }

  lemma LookIsOwed(s: State)
    requires Invariant(s) && s.reg.Launched? && s.stream.None? && s.mem.Some? && !s.covered
    requires s.tracked.Some? || AllSent(s, s.reg.gen)
    ensures Owed(Checking(s))
  {
    OrderWithout(s.channel, 0, s.reg.gen);
  }

  // ---- Without one ---------------------------------------------------------------------

  /** In every interleaving, registrations without a backfill included: a config on disk
      that says nothing is left to fetch is right, or the live stream's catch-up is under
      way, all in the channel or comes back at the next start, or it was cut or spilled. */
  lemma UnmarkedIsSafe(steps: seq<Step>)
    requires forall step | step in steps :: !step.LateCheck?
    ensures var s := Run(INIT, steps); Safe(s.disk, s.covered, s.stream, s.cut || s.spilled)
  {
    InvariantHolds(steps);
  }

  /** Nothing is under way, and memory is on disk. */
  ghost predicate AtRest(s: State) {
    && s.channel == [] && s.signals == 0 && !s.clearing && !s.freezing && !s.halting && s.persisting.None? &&
       s.disk == s.mem
    && (forall g | g in s.jobs :: s.jobs[g].left == 0)
    && (s.stream.Some? ==> s.stream.value.flowing ==> s.stream.value.unsent == 0)
  }

  /** The history was not taken and nothing will ever fetch it. */
  ghost predicate Lost(s: State) {
    && !s.covered && s.disk == SILENT && (s.mem.Some? ==> s.mem == SILENT) &&
       (s.persisting.Some? ==> s.persisting == SILENT)
    && s.jobs == map[] && s.tracked.None? && !s.freezing && (s.loaded ==> s.used) && !s.reg.Visible? && !s.reg.Ready?
    && s.stream.Some? && !s.stream.value.flowing && s.stream.value.unsent > 0
    && s.stream.value.untaken > Items(s.channel, Event(0))
  }

  /** A contract registered without a backfill, once everything that was under way in that
      run is done: its history is lost if and only if a freeze found the marker still on
      and stopped the live stream before it had caught up. */
  lemma RegisteredWithoutLosesIff(steps: seq<Step>)
    requires forall step | step in steps :: !step.LateCheck?
    requires var s := Run(INIT, steps); s.reg == Checked(0) && s.mem.Some? && AtRest(s)
    ensures var s := Run(INIT, steps); Lost(s) <==> s.cut
  {
    InvariantHolds(steps);
    RestLosesIff(Run(INIT, steps));
  }

  lemma RestLosesIff(s: State)
    requires Invariant(s) && s.reg == Checked(0) && s.mem.Some? && AtRest(s)
    ensures Lost(s) <==> s.cut
  {
  }

  /** Between its completion and the tip, a contract's config has no marker. A freeze that
      is saved then, before the engine took everything, and a crash lose the rest if and
      only if the freeze found the live stream caught up and no backfill tracked. */
  lemma CrashLosesIff(s: State, caughtUp: bool)
    requires Invariant(s) && s.mem == Some(Config(false, false)) && s.persisting.None? && !s.reg.Visible?
    requires s.stream.Some? && !s.covered && (caughtUp ==> s.stream.value.unsent == 0)
    ensures var saved := Next(Next(Next(s, Freeze(caughtUp)), Snapshot), Save(true));
            Lost(Next(saved, Crash)) <==> s.tracked.None? && caughtUp
  {
    var frozen := Next(s, Freeze(caughtUp));
    FrozenConfig(s, caughtUp);
    StepKeepsInvariant(s, Freeze(caughtUp));
    var kept := Next(frozen, Snapshot);
    SnapshotKept(frozen);
    StepKeepsInvariant(frozen, Snapshot);
    SaveWritten(kept);
    StepKeepsInvariant(kept, Save(true));
    CrashLoses(Next(kept, Save(true)));
  }

  lemma StillLatched(s: State, t: State)
    requires Invariant(s) && s.mem.Some? && !s.covered
    requires t.covered == s.covered && t.stream == s.stream && t.jobs == s.jobs && t.channel == s.channel
    ensures Latch(t) == t
  {
    forall g | g in t.jobs ensures !Took(t, g) {
      assert Took(t, g) == Took(s, g);
    }
  }

  lemma FrozenConfig(s: State, caughtUp: bool)
    requires Invariant(s) && s.mem == Some(Config(false, false)) && s.stream.Some? && !s.covered
    requires caughtUp ==> s.stream.value.unsent == 0
    ensures var t := Next(s, Freeze(caughtUp));
            && t.mem == Some(Config(s.tracked.Some? || !caughtUp, true)) && t.persisting == s.persisting &&
               t.reg == s.reg
            && t.stream == s.stream && t.covered == s.covered
  {
    StillLatched(s, Ending(s, Freeze(caughtUp)));
  }

  lemma SnapshotKept(s: State)
    requires Invariant(s) && s.mem.Some? && s.persisting.None? && !s.covered
    ensures var t := Next(s, Snapshot);
            t.persisting == t.mem == s.mem && t.reg == s.reg && t.stream == s.stream && t.covered == s.covered
  {
    StillLatched(s, Registering(s, Snapshot));
  }

  lemma SaveWritten(s: State)
    requires Invariant(s) && s.mem.Some? && s.persisting.Some? && !s.covered
    ensures var t := Next(s, Save(true));
            t.disk == s.persisting && t.mem == s.mem && t.stream == s.stream && t.covered == s.covered
  {
    StillLatched(s, Registering(s, Save(true)));
  }

  lemma CrashLoses(s: State)
    requires Invariant(s) && s.mem.Some? && s.stream.Some? && !s.covered && s.disk == s.mem
    ensures Lost(Next(s, Crash)) <==> s.mem == SILENT
  {
    var t := Ending(s, Crash);
    assert Latch(t) == t;
  }

  lemma LossOutlastsAStop(s: State)
    requires Lost(s)
    ensures Lost(s.(persisting := s.mem)) && Lost(s.(stopping := true))
  {
  }

  lemma LossOutlastsACrash(s: State)
    requires Lost(s)
    ensures Lost(Ending(s, Crash))
  {
  }

  lemma LossOutlastsASignal(s: State, channel: seq<Message>)
    requires Lost(s) && Items(channel, Event(0)) == Items(s.channel, Event(0)) && s.signals > 0
    ensures Lost(s.(signals := s.signals - 1, channel := channel))
  {
  }

  lemma LossOutlastsFetching(s: State, step: Step)
    requires Lost(s) && Fetches(step)
    ensures Lost(Fetching(s, step))
  {
    if step.Signal? && s.signals > 0 {
      ItemsAppend(s.channel, Done(0), Event(0));
      LossOutlastsASignal(s, s.channel + [Done(0)]);
    }
  }

  lemma LossOutlastsRegistering(s: State, step: Step)
    requires Lost(s) && Registers(step)
    ensures Lost(Registering(s, step))
  {
    if step.Snapshot? {
      LossOutlastsAStop(s);
    }
  }

  lemma LossOutlastsEnding(s: State, step: Step)
    requires Lost(s) && !Registers(step) && !Fetches(step) && step != Deregister(true)
    ensures Lost(Ending(s, step))
  {
    match step
    case Freeze(_) =>
    case FreezeLaunch(_) =>
    case StopLive =>
    case Deregister(_) =>
    case StopRun => LossOutlastsAStop(s);
    case Crash => LossOutlastsACrash(s);
  }

  lemma LossLasts(s: State, step: Step)
    requires Lost(s) && step != Deregister(true)
    ensures Lost(Act(s, step))
  {
    if Registers(step) {
      LossOutlastsRegistering(s, step);
    } else if Fetches(step) {
      LossOutlastsFetching(s, step);
    } else {
      LossOutlastsEnding(s, step);
    }
  }

  lemma LostLatches(s: State)
    requires Lost(s)
    ensures Latch(s) == s
  {
  }

  /** Nothing but the deletion of the config ends a loss. */
  lemma LossIsFinal(s: State, step: Step)
    requires Lost(s) && step != Deregister(true)
    ensures Lost(Next(s, step))
  {
    LossLasts(s, step);
    LostLatches(Act(s, step));
  }

  // ---- The failing runs ----------------------------------------------------------------

  /** Which steps a run may take besides the plain ones. */
  datatype Scope = WithAdds | WithLooks | Plain

  ghost predicate Admitted(step: Step, scope: Scope) {
    (step.AddWithout? ==> scope.WithAdds?) && (step.LateCheck? ==> scope.WithLooks?)
  }

  /** `R` holds of whatever admitted steps lead to from a state it holds of. */
  ghost predicate Closed(R: State -> bool, scope: Scope) {
    forall s, step | R(s) && Admitted(step, scope) :: R(Next(s, step))
  }

  /** Nothing of the history can count as taken. */
  ghost predicate Waiting(s: State) {
    (s.stream.Some? ==> s.stream.value.untaken > 0) && forall g | g in s.jobs :: s.jobs[g].left > 0
  }

  lemma WaitingLatches(s: State)
    requires Waiting(s)
    ensures Latch(s) == s
  {
  }

  lemma Then(R: State -> bool, scope: Scope, s: State, step: Step, t: State)
    requires Closed(R, scope) && R(s) && Act(s, step) == t && Waiting(t) && Admitted(step, scope)
    ensures R(t)
  {
    WaitingLatches(t);
    assert R(Next(s, step));
  }

  const REGISTERED: State :=
    INIT.(loaded := true, used := true, mem := Some(Config(true, false)), disk := Some(Config(true, false)),
          reg := Ready, haveStart := true)

  lemma ReachesRegistered(R: State -> bool, scope: Scope)
    requires Closed(R, scope) && R(INIT)
    ensures R(REGISTERED)
  {
    Then(R, scope, INIT, Restart(false, true, 0), INIT.(loaded := true));
    Then(R, scope, INIT.(loaded := true), Register(true, true), REGISTERED);
  }

  lemma SignalStep(R: State -> bool, scope: Scope, s: State)
    requires Closed(R, scope) && R(s) && Waiting(s) && s.signals == 1 && s.channel == []
    ensures R(s.(signals := 0, channel := [Done(0)]))
  {
    Then(R, scope, s, Signal, s.(signals := 0, channel := [Done(0)]));
  }

  lemma TakeStep(R: State -> bool, scope: Scope, s: State)
    requires Closed(R, scope) && R(s) && Waiting(s) && s.channel == [Done(0)] && !s.clearing && s.mem.Some? &&
             s.tracked.None?
    ensures R(s.(channel := [], clearing := true))
  {
    Then(R, scope, s, Take, s.(channel := [], clearing := true));
  }

  lemma ClearStep(R: State -> bool, scope: Scope, s: State, c: Config)
    requires Closed(R, scope) && R(s) && Waiting(s) && s.clearing && s.mem == Some(c)
    ensures R(s.(clearing := false, mem := Some(c.(marker := false))))
  {
    Then(R, scope, s, Clear, s.(clearing := false, mem := Some(c.(marker := false))));
  }

  lemma SnapshotStep(R: State -> bool, scope: Scope, s: State)
    requires Closed(R, scope) && R(s) && Waiting(s) && s.persisting.None?
    ensures R(s.(persisting := s.mem))
  {
    Then(R, scope, s, Snapshot, s.(persisting := s.mem));
  }

  lemma SaveStep(R: State -> bool, scope: Scope, s: State)
    requires Closed(R, scope) && R(s) && Waiting(s) && s.persisting.Some? && !s.reg.Visible?
    ensures R(s.(persisting := None, disk := s.persisting))
  {
    Then(R, scope, s, Save(true), s.(persisting := None, disk := s.persisting));
  }

  lemma CompletedIs(s: State, mem: Option<Config>)
    requires s.channel == [] && !s.clearing
    ensures s.(signals := 0, channel := [Done(0)]).(channel := [], clearing := true).(clearing := false, mem := mem)
            == s.(signals := 0, mem := mem)
  {
  }

  lemma SavedIs(s: State)
    requires s.persisting.None?
    ensures s.(persisting := s.mem).(persisting := None, disk := s.mem) == s.(disk := s.mem)
  {
  }

  /** A completion without a backfill is taken and clears the marker ... */
  lemma Completes(R: State -> bool, scope: Scope, s: State, c: Config)
    requires Closed(R, scope) && R(s) && Waiting(s) && s.mem == Some(c)
    requires s.signals == 1 && s.channel == [] && !s.clearing && s.tracked.None?
    ensures R(s.(signals := 0, mem := Some(c.(marker := false))))
  {
    var sent := s.(signals := 0, channel := [Done(0)]);
    var taken := sent.(channel := [], clearing := true);
    SignalStep(R, scope, s);
    TakeStep(R, scope, sent);
    ClearStep(R, scope, taken, c);
    CompletedIs(s, Some(c.(marker := false)));
  }

  /** ... and the config is saved. */
  lemma Saves(R: State -> bool, scope: Scope, s: State)
    requires Closed(R, scope) && R(s) && Waiting(s) && s.mem.Some? && s.persisting.None? && !s.reg.Visible?
    ensures R(s.(disk := s.mem))
  {
    var kept := s.(persisting := s.mem);
    SnapshotStep(R, scope, s);
    SaveStep(R, scope, kept);
    SavedIs(s);
  }

  /** Registered, with `n` events of history that the live stream catches up on. */
  function Added(n: nat): State {
    REGISTERED.(reg := Launched(0), stream := Some(Stream(n, n, true)))
  }

  lemma ReachesAdded(R: State -> bool, n: nat)
    requires Closed(R, WithAdds) && R(INIT) && n > 0
    ensures R(Added(n))
  {
    ReachesRegistered(R, WithAdds);
    Then(R, WithAdds, REGISTERED, AddWithout(n), Added(n));
  }

  lemma CheckStep(R: State -> bool, scope: Scope, s: State, step: Step)
    requires Closed(R, scope) && R(s) && Waiting(s) && s.reg.Launched? && s.tracked.None?
    requires step == if s.stopping then LateCheck else Check
    requires s.stopping ==> scope.WithLooks?
    ensures R(s.(reg := Checked(s.reg.gen), signals := s.signals + 1))
  {
    Then(R, scope, s, step, s.(reg := Checked(s.reg.gen), signals := s.signals + 1));
  }

  lemma FreezeStep(R: State -> bool, s: State)
    requires Closed(R, WithAdds) && R(s) && Waiting(s) && s.mem == Some(Config(true, false)) && s.jobs == map[]
    ensures R(s.(mem := Some(Config(true, true)), halting := true, early := true))
  {
    Then(R, WithAdds, s, Freeze(false), s.(mem := Some(Config(true, true)), halting := true, early := true));
  }

  lemma StopLiveStep(R: State -> bool, s: State, n: nat)
    requires Closed(R, WithAdds) && R(s) && s.halting && s.early && n > 0 && s.stream == Some(Stream(n, n, true)) &&
             s.jobs == map[]
    ensures R(s.(halting := false, stream := Some(Stream(n, n, false)), cut := true))
  {
    Then(R, WithAdds, s, StopLive, s.(halting := false, stream := Some(Stream(n, n, false)), cut := true));
  }

  function Frozen(n: nat): State {
    Added(n).(reg := Checked(0), mem := SILENT, disk := SILENT, early := true, cut := true,
              stream := Some(Stream(n, n, false)))
  }

  lemma ReachesFrozen(R: State -> bool, n: nat)
    requires Closed(R, WithAdds) && R(INIT) && n > 0
    ensures R(Frozen(n))
  {
    var checked := Added(n).(reg := Checked(0), signals := 1);
    var frozen := checked.(mem := Some(Config(true, true)), halting := true, early := true);
    var halted := frozen.(halting := false, stream := Some(Stream(n, n, false)), cut := true);
    ReachesAdded(R, n);
    CheckStep(R, WithAdds, Added(n), Check);
    FreezeStep(R, checked);
    StopLiveStep(R, frozen, n);
    Completes(R, WithAdds, halted, Config(true, true));
    Saves(R, WithAdds, halted.(signals := 0, mem := SILENT));
  }

  function Events(k: nat): seq<Message> {
    if k == 0 then [] else Events(k - 1) + [Event(0)]
  }

  /** The stream has sent k of n events, and the engine took none. */
  function Sending(s: State, n: nat, k: nat): State
    requires k <= n
  {
    s.(stream := Some(Stream(n, n - k, true)), channel := Events(k))
  }

  lemma StreamSendStep(R: State -> bool, s: State, n: nat, k: nat)
    requires Closed(R, WithAdds) && k < n && R(Sending(s, n, k)) && s.jobs == map[]
    ensures R(Sending(s, n, k + 1))
  {
    Then(R, WithAdds, Sending(s, n, k), StreamSend, Sending(s, n, k + 1));
  }

  lemma {:induction false} ReachesSending(R: State -> bool, s: State, n: nat, k: nat)
    requires Closed(R, WithAdds) && k <= n && R(Sending(s, n, 0)) && s.jobs == map[]
    ensures R(Sending(s, n, k))
  {
    if k > 0 {
      ReachesSending(R, s, n, k - 1);
      StreamSendStep(R, s, n, k - 1);
    }
  }

  lemma FreezeLiveStep(R: State -> bool, s: State)
    requires Closed(R, WithAdds) && R(s) && Waiting(s) && s.mem == Some(Config(false, false)) && s.tracked.None?
    requires s.stream.Some? && s.stream.value.unsent == 0
    ensures R(s.(mem := SILENT, halting := true, early := false))
  {
    Then(R, WithAdds, s, Freeze(true), s.(mem := SILENT, halting := true, early := false));
  }

  function Unmarked(n: nat): State {
    Added(n).(reg := Checked(0), mem := Some(Config(false, false)), disk := Some(Config(false, false)))
  }

  /** Caught up, with all of its history still in the channel, and frozen. */
  function Live(n: nat): State {
    Sending(Unmarked(n), n, n).(mem := SILENT, disk := SILENT, halting := true)
  }

  lemma ReachesUnmarked(R: State -> bool, n: nat)
    requires Closed(R, WithAdds) && R(INIT) && n > 0
    ensures R(Unmarked(n))
  {
    var checked := Added(n).(reg := Checked(0), signals := 1);
    ReachesAdded(R, n);
    CheckStep(R, WithAdds, Added(n), Check);
    Completes(R, WithAdds, checked, Config(true, false));
    Saves(R, WithAdds, checked.(signals := 0, mem := Some(Config(false, false))));
  }

  lemma ReachesLive(R: State -> bool, n: nat)
    requires Closed(R, WithAdds) && R(INIT) && n > 0
    ensures R(Live(n))
  {
    var sent := Sending(Unmarked(n), n, n);
    ReachesUnmarked(R, n);
    assert Sending(Unmarked(n), n, 0) == Unmarked(n);
    ReachesSending(R, Unmarked(n), n, n);
    FreezeLiveStep(R, sent);
    Saves(R, WithAdds, sent.(mem := SILENT, halting := true));
  }

  /** Registered, with a backfill of `n` events. */
  function WithBackfill(n: nat): State {
    REGISTERED.(reg := Launched(1), issued := 1, jobs := map[1 := Job(n, false, false)], tracked := Some(1))
  }

  lemma ReachesBackfill(R: State -> bool, n: nat)
    requires Closed(R, WithLooks) && R(INIT) && n > 0
    ensures R(WithBackfill(n))
  {
    ReachesRegistered(R, WithLooks);
    Then(R, WithLooks, REGISTERED, AddLaunch(n), WithBackfill(n));
  }

  lemma StopStep(R: State -> bool, s: State)
    requires Closed(R, WithLooks) && R(s) && Waiting(s)
    ensures R(s.(stopping := true))
  {
    Then(R, WithLooks, s, StopRun, s.(stopping := true));
  }

  lemma UntrackStep(R: State -> bool, s: State, g: nat)
    requires Closed(R, WithLooks) && R(s) && Waiting(s) && s.stopping && s.tracked == Some(g) && g in s.jobs
    ensures R(s.(tracked := None))
  {
    Then(R, WithLooks, s, Untrack(g), s.(tracked := None));
  }

  function Unfetched(n: nat): State {
    WithBackfill(n).(reg := Checked(1), stopping := true, tracked := None, mem := Some(Config(false, false)),
                     disk := Some(Config(false, false)))
  }

  lemma ReachesUnfetched(R: State -> bool, n: nat)
    requires Closed(R, WithLooks) && R(INIT) && n > 0
    ensures R(Unfetched(n))
  {
    var stopped := WithBackfill(n).(stopping := true);
    var untracked := stopped.(tracked := None);
    ReachesBackfill(R, n);
    StopStep(R, WithBackfill(n));
    UntrackStep(R, stopped, 1);
    CheckStep(R, WithLooks, untracked, LateCheck);
    Completes(R, WithLooks, untracked.(reg := Checked(1), signals := 1), Config(true, false));
    Saves(R, WithLooks, untracked.(reg := Checked(1), signals := 0, mem := Some(Config(false, false))));
  }

  ghost predicate Leads(s: State, steps: seq<Step>, scope: Scope, t: State) {
    Run(s, steps) == t && forall step | step in steps :: Admitted(step, scope)
  }

  ghost predicate Reachable(s: State, t: State, scope: Scope) {
    exists steps :: Leads(s, steps, scope, t)
  }

  lemma ReachableIsClosed(s: State, scope: Scope)
    ensures Reachable(s, s, scope) && Closed(t => Reachable(s, t, scope), scope)
  {
    assert Leads(s, [], scope, s);
    forall t, step | Reachable(s, t, scope) && Admitted(step, scope) ensures Reachable(s, Next(t, step), scope) {
      var steps :| Leads(s, steps, scope, t);
      assert (steps + [step])[..|steps|] == steps;
      assert Leads(s, steps + [step], scope, Next(t, step));
    }
  }

  /** A contract registered without a backfill and frozen before its completion was taken
      loses the history its live stream had not sent. */
  lemma FreezeBeforeCompletionLosesHistory(n: nat) returns (steps: seq<Step>)
    requires n > 0
    ensures forall step | step in steps :: !step.LateCheck?
    ensures var s := Run(INIT, steps);
            s.reg == Checked(0) && s.stream == Some(Stream(n, n, false)) && AtRest(s) && Lost(s)
  {
    ReachableIsClosed(INIT, WithAdds);
    ReachesFrozen(s => Reachable(INIT, s, WithAdds), n);
    steps :| Leads(INIT, steps, WithAdds, Frozen(n));
    FrozenIsLost(n);
  }

  lemma FrozenIsLost(n: nat)
    requires n > 0
    ensures AtRest(Frozen(n)) && Lost(Frozen(n))
  {
  }

  /** A crash right after a live contract was frozen loses what the engine had not taken. */
  lemma CrashAfterFreezeLosesHistory(n: nat) returns (steps: seq<Step>)
    requires n > 0
    ensures forall step | step in steps :: !step.LateCheck?
    ensures var s := Run(INIT, steps); Lost(s) && !s.cut && s.stream == Some(Stream(n, n, false))
  {
    ReachableIsClosed(INIT, WithAdds);
    ReachesLive(s => Reachable(INIT, s, WithAdds), n);
    LiveIsLost(Live(n), n);
    assert Reachable(INIT, Next(Live(n), Crash), WithAdds);
    steps :| Leads(INIT, steps, WithAdds, Next(Live(n), Crash));
  }

  lemma LiveIsLost(s: State, n: nat)
    requires n > 0 && s.disk == SILENT && s.stream == Some(Stream(n, 0, true)) && !s.covered && !s.cut
    ensures var t := Next(s, Crash); Lost(t) && !t.cut && t.stream == Some(Stream(n, n, false))
  {
    assert Latch(Ending(s, Crash)) == Ending(s, Crash);
  }

  /** A look after the run's context ended finds the backfill untracked and completes the
      history that the backfill had not sent. */
  lemma LateCheckLosesHistory(n: nat) returns (steps: seq<Step>)
    requires n > 0
    ensures forall step | step in steps :: !step.AddWithout?
    ensures var s := Run(INIT, steps); s.disk == Some(Config(false, false)) && !s.covered
  {
    ReachableIsClosed(INIT, WithLooks);
    ReachesUnfetched(s => Reachable(INIT, s, WithLooks), n);
    steps :| Leads(INIT, steps, WithLooks, Unfetched(n));
  }

  // ---- What a late look loses ------------------------------------------------------------

  lemma {:induction false} Inside(channel: seq<Message>, m: Message)
    requires m in channel
    ensures Items(channel, m) > 0
  {
    if channel[0] != m {
      Inside(channel[1..], m);
    }
  }

  /** While the backfill has events left, only events are in the channel. */
  lemma OnlyEvents(s: State)
    requires Invariant(s) && s.reg.Launched? && s.mem.Some? && !s.covered && s.stream.None? && !AllSent(s, s.reg.gen)
    ensures Waiting(s) && forall m | m in s.channel :: m.Event?
  {
    forall m | m in s.channel ensures m.Event? {
      Inside(s.channel, m);
    }
  }

  lemma TakeEventStep(R: State -> bool, scope: Scope, s: State)
    requires Closed(R, scope) && R(s) && Waiting(s) && s.stream.None? && !s.clearing
    requires s.channel != [] && s.channel[0].Event?
    ensures R(s.(channel := s.channel[1..]))
  {
    Then(R, scope, s, Take, s.(channel := s.channel[1..]));
  }

  lemma EmptyChannel(s: State, channel: seq<Message>)
    ensures s.(channel := channel).(channel := []) == s.(channel := [])
    ensures s.channel == [] ==> s.(channel := []) == s
  {
  }

  /** The event loop takes them all. */
  lemma {:induction false} Drained(R: State -> bool, scope: Scope, s: State)
    requires Closed(R, scope) && R(s) && Waiting(s) && s.stream.None? && !s.clearing
    requires forall m | m in s.channel :: m.Event?
    ensures R(s.(channel := []))
    decreases |s.channel|
  {
    EmptyChannel(s, []);
    if s.channel != [] {
      EmptyChannel(s, s.channel[1..]);
      assert s.channel[0] in s.channel;
      TakeEventStep(R, scope, s);
      Drained(R, scope, s.(channel := s.channel[1..]));
    }
  }

  /** A write under way fails. */
  lemma WriteFails(R: State -> bool, scope: Scope, s: State)
    requires Closed(R, scope) && R(s) && Waiting(s) && !s.reg.Visible?
    ensures R(s.(persisting := None))
  {
    if s.persisting.Some? {
      Then(R, scope, s, Save(false), s.(persisting := None));
    } else {
      assert s.(persisting := None) == s;
    }
  }

  /** Nothing on disk asks for the history, which the engine has not taken. */
  ghost predicate Dropped(s: State) {
    s.disk.Some? && !s.disk.value.marker && !s.covered
  }

  lemma LookDrops(R: State -> bool, s: State, c: Config) returns (t: State)
    requires Closed(R, Plain) && R(s) && Waiting(s) && s.mem == Some(c) && !s.covered && s.stream.None?
    requires s.signals == 1 && !s.clearing && s.tracked.None? && !s.reg.Visible?
    requires forall m | m in s.channel :: m.Event?
    ensures R(t) && Dropped(t)
  {
    WriteFails(R, Plain, s);
    t := s.(persisting := None);
    Drained(R, Plain, t);
    t := t.(channel := []);
    Completes(R, Plain, t, c);
    t := t.(signals := 0, mem := Some(c.(marker := false)));
    Saves(R, Plain, t);
    t := t.(disk := t.mem);
  }

  lemma LateLookDrops(s: State)
    requires Invariant(s) && s.reg.Launched? && s.stopping && s.stream.None?
    requires s.mem.Some? && !s.covered && s.tracked.None? && !AllSent(s, s.reg.gen)
    ensures exists t :: Reachable(Next(s, LateCheck), t, Plain) && Dropped(t)
  {
    var u := Checking(s);
    OnlyEvents(s);
    LookIsChecking(s);
    LookLatches(s);
    ReachableIsClosed(u, Plain);
    var t := LookDrops(t => Reachable(u, t, Plain), u, s.mem.value);
  }

  lemma NeverDropped(s: State, steps: seq<Step>)
    requires Invariant(s) && s.stream.None? && forall step | step in steps :: Admitted(step, Plain)
    ensures !Dropped(Run(s, steps))
  {
    InvariantLasts(s, steps);
    NoStream(s, steps);
  }

  /** A look after the run's context ended costs the history, in some continuation with no
      other such look and no registration without a backfill, if and only if the contract
      is still there, its history is not in, and the backfill is untracked with events
      left to send. */
  lemma LateCheckIff(s: State)
    requires Invariant(s) && s.reg.Launched? && s.stopping && s.stream.None?
    ensures (exists t :: Reachable(Next(s, LateCheck), t, Plain) && Dropped(t)) <==>
              s.mem.Some? && !s.covered && s.tracked.None? && !AllSent(s, s.reg.gen)
  {
    if s.mem.Some? && !s.covered && s.tracked.None? && !AllSent(s, s.reg.gen) {
      LateLookDrops(s);
    } else {
      HarmlessLook(s);
      ActsWithoutStream(s, LateCheck);
      var u := Next(s, LateCheck);
      forall t | Reachable(u, t, Plain) ensures !Dropped(t) {
        var steps :| Leads(u, steps, Plain, t);
        NeverDropped(u, steps);
      }
    }
  }
}
