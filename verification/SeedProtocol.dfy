/** The seed/resume-floor protocol of the keys-sub (firehose_keys.go:105-206,
    408-428, 896-973) as a labelled state machine. A registration holds the seed
    lock shared from its tip read to its seed; fillBehind and a reorg rollback hold
    it exclusively, so they are single steps that run only while no registration
    is under way. Everything else interleaves freely. */
module SeedProtocol {
  import opened Events
  import Delivery

  /** How far a registration holding the shared lock has got. */
  datatype Phase =
    | Locked(start: nat)
    | TipRead(start: nat, tipPlusOne: nat)
    | Chosen(start: nat, tipPlusOne: nat, from: nat)   // read the resume floor and chose the seed
    | FillSet(start: nat, tipPlusOne: nat, from: nat)  // in the gap-fill set, cursor not yet seeded
    | Seeded(start: nat, from: nat)

  /** What the world was when a registration seeded its cursor. */
  datatype Seed = Seed(start: nat, tipPlusOne: nat, floor: nat, cursor: nat)

  /** What a finished registration backfills (blocks lo, ..., hi) and where its live stream starts. */
  datatype Split = Split(start: nat, lo: nat, hi: nat, from: nat)

  datatype State = State(
    cursors: map<Addr, nat>,
    fills: set<Addr>,
    resumeFloor: nat,
    committed: bool,                // a resume block was committed and its session has not ended
    registering: map<Addr, Phase>,  // holders of the shared lock
    seeds: map<Addr, Seed>,
    splits: map<Addr, Split>,
    childCursors: map<Addr, nat>,   // ERC20 children's own streams
    owedRollbacks: map<Addr, nat>)  // children a rollback listed but has not reached yet

  datatype Step =
    | Lock(a: Addr, start: nat)
    | ReadTip(a: Addr, tipPlusOne: nat)
    | Choose(a: Addr)
    | SetFill(a: Addr)
    | SetCursor(a: Addr)
    | Unlock(a: Addr, erc20: bool)
    | FillBehind(block: nat)
    | RollbackAll(start: nat)
    | RollbackChild(a: Addr)
    | Forward(a: Addr, block: nat)     // live forwarding, backfill or reconcile
    | GapFilled(a: Addr, last: nat)
    | Remove(a: Addr)
    | EndSession(caps: map<Addr, nat>)

  const INIT: State := State(map[], {}, 0, false, map[], map[], map[], map[], map[])

  function Cursor(s: State, a: Addr): nat {
    if a in s.cursors then s.cursors[a] else 0
  }

  function Raise(m: map<Addr, nat>, a: Addr, block: nat): map<Addr, nat> {
    if a in m && m[a] >= block then m else m[a := block]
  }

  function CapAll(m: map<Addr, nat>, block: nat): map<Addr, nat> {
    map a | a in m :: if m[a] > block then block else m[a]
  }

  function SplitOf(start: nat, from: nat): Split {
    if start < from then Split(start, start, from - 1, from) else Split(start, start, start, from)
  }

  /** `locking` off is the same program without the seed lock. */
  function Next(s: State, step: Step, locking: bool): State {
    match step
    case Lock(a, start) =>
      if a in s.registering then s else s.(registering := s.registering[a := Locked(start)])
    case ReadTip(a, t) =>
      if !(a in s.registering && s.registering[a].Locked?) then s
      else s.(registering := s.registering[a := TipRead(s.registering[a].start, t)])
    case Choose(a) =>
      if !(a in s.registering && s.registering[a].TipRead?) then s
      else
        var p := s.registering[a];
        s.(registering := s.registering[a := Chosen(p.start, p.tipPlusOne,
                                                    Delivery.SeedBlock(p.start, p.tipPlusOne, s.resumeFloor))])
    case SetFill(a) =>
      if !(a in s.registering && s.registering[a].Chosen?) then s
      else
        var p := s.registering[a];
        s.(fills := s.fills + {a}, registering := s.registering[a := FillSet(p.start, p.tipPlusOne, p.from)])
    case SetCursor(a) =>
      if !(a in s.registering && s.registering[a].FillSet?) then s
      else
        var p := s.registering[a];
        var cursors := s.cursors[a := p.from];
        s.(cursors := cursors, registering := s.registering[a := Seeded(p.start, p.from)],
           seeds := s.seeds[a := Seed(p.start, p.tipPlusOne, s.resumeFloor, cursors[a])])
    case Unlock(a, erc20) =>
      if !(a in s.registering && s.registering[a].Seeded?) then s
      else
        var p := s.registering[a];
        s.(splits := s.splits[a := SplitOf(p.start, p.from)],
           childCursors := if erc20 then s.childCursors[a := p.from] else s.childCursors,
           registering := s.registering - {a})
    case FillBehind(block) =>
      if locking && s.registering != map[] then s
      else if exists a | a in s.fills :: Cursor(s, a) < block then s
      else s.(resumeFloor := block, committed := true)
    case RollbackAll(start) =>
      if locking && s.registering != map[] then s
      else s.(resumeFloor := if s.resumeFloor > start then start else s.resumeFloor,
              cursors := CapAll(s.cursors, start),
              owedRollbacks := map a | a in s.childCursors ::
                                 if a in s.owedRollbacks && s.owedRollbacks[a] < start then s.owedRollbacks[a]
                                     else start)
    case RollbackChild(a) =>
      if !(a in s.owedRollbacks && a in s.childCursors) then s
      else s.(childCursors := if s.childCursors[a] > s.owedRollbacks[a] then s.childCursors[a := s.owedRollbacks[a]]
              else s.childCursors,
              owedRollbacks := s.owedRollbacks - {a})
    case Forward(a, block) => s.(cursors := Raise(s.cursors, a, block))
    case GapFilled(a, last) => s.(cursors := Raise(s.cursors, a, last))
    case Remove(a) => s.(fills := s.fills - {a})
    case EndSession(caps) =>
      s.(committed := false,
         cursors := map a | a in s.cursors :: if a in caps && s.cursors[a] > caps[a] then caps[a] else s.cursors[a])
  }

  function Run(s: State, steps: seq<Step>, locking: bool): State {
    if steps == [] then s else Next(Run(s, steps[..|steps| - 1], locking), steps[|steps| - 1], locking)
  }

  /** No fill is behind the resume block, except one a registration is seeding right now. */
  ghost predicate FloorHolds(s: State) {
    s.committed ==> forall a | a in s.fills && !(a in s.registering && s.registering[a].FillSet?) ::
        Cursor(s, a) >= s.resumeFloor
  }

  /** `from` is the cursor that was seeded: the largest of the start block, the tip's
      successor and the resume floor as they were then. */
  ghost predicate SeededAt(s: State, a: Addr, start: nat, from: nat) {
    && a in s.seeds && s.seeds[a].start == start && s.seeds[a].cursor == from
    && from == Delivery.SeedBlock(start, s.seeds[a].tipPlusOne, s.seeds[a].floor)
  }

  /** What a registration chose is still the right choice. */
  ghost predicate ChoicesHold(s: State) {
    forall a | a in s.registering && (s.registering[a].Chosen? || s.registering[a].FillSet?) ::
      s.registering[a].from == Delivery.SeedBlock(s.registering[a].start, s.registering[a].tipPlusOne, s.resumeFloor)
  }

  ghost predicate SeedsHold(s: State) {
    && (forall a | a in s.registering && s.registering[a].Seeded? ::
          SeededAt(s, a, s.registering[a].start, s.registering[a].from))
    && (forall a | a in s.splits && a !in s.registering ::
          s.splits[a] == SplitOf(s.splits[a].start, s.splits[a].from) &&
              SeededAt(s, a, s.splits[a].start, s.splits[a].from))
  }

  ghost predicate Invariant(s: State) {
    FloorHolds(s) && ChoicesHold(s) && SeedsHold(s)
  }

  lemma {:induction false} InvariantHolds(s: State, steps: seq<Step>)
    requires Invariant(s)
    ensures Invariant(Run(s, steps, true))
  {
    if steps != [] {
      InvariantHolds(s, steps[..|steps| - 1]);
      StepKeepsInvariant(Run(s, steps[..|steps| - 1], true), steps[|steps| - 1]);
    }
  }

  lemma StepKeepsFloor(s: State, step: Step)
    requires FloorHolds(s) && ChoicesHold(s)
    ensures FloorHolds(Next(s, step, true))
  {
    var t := Next(s, step, true);
    if step.FillBehind? && t != s {
      forall a | a in t.fills ensures Cursor(t, a) >= t.resumeFloor {
        assert !(exists x | x in s.fills :: Cursor(s, x) < step.block);
      }
    }
  }

  lemma StepKeepsChoices(s: State, step: Step)
    requires ChoicesHold(s)
    ensures ChoicesHold(Next(s, step, true))
  {
  }

  lemma StepKeepsSeeds(s: State, step: Step)
    requires ChoicesHold(s) && SeedsHold(s)
    ensures SeedsHold(Next(s, step, true))
  {
  }

  lemma StepKeepsInvariant(s: State, step: Step)
    requires Invariant(s)
    ensures Invariant(Next(s, step, true))
  {
    StepKeepsFloor(s, step);
    StepKeepsChoices(s, step);
    StepKeepsSeeds(s, step);
  }

  /** In every interleaving: from a commit to the end of its session no fill's cursor is below the floor. */
  lemma NoFillBehindTheFloor(steps: seq<Step>, a: Addr)
    requires var s := Run(INIT, steps, true); s.committed && a in s.fills && a !in s.registering
    ensures var s := Run(INIT, steps, true); Cursor(s, a) >= s.resumeFloor
  {
    InvariantHolds(INIT, steps);
  }

  /** In every interleaving: each finished registration's history from its start block on
      is split between its backfill and its live stream, which starts at the cursor the
      registration seeded, not below the resume floor of that moment, the tip or the
      start block. They overlap in the deploy block alone, and exactly when the live
      stream starts there. */
  lemma HistorySplits(steps: seq<Step>, a: Addr, block: nat)
    requires var s := Run(INIT, steps, true); a in s.splits && a !in s.registering && s.splits[a].start <= block
    ensures var s := Run(INIT, steps, true);
            var p := s.splits[a];
            && SeededAt(s, a, p.start, p.from)
            && (p.lo <= block <= p.hi || s.seeds[a].cursor <= block)
            && (p.lo <= block <= p.hi && s.seeds[a].cursor <= block <==> block == p.start == s.seeds[a].cursor)
  {
    InvariantHolds(INIT, steps);
  }

  ghost predicate Owed(s: State, a: Addr, start: nat) {
    a in s.childCursors && a in s.owedRollbacks && s.owedRollbacks[a] <= start
  }

  lemma StepKeepsOwing(s: State, step: Step, a: Addr, start: nat)
    requires Owed(s, a, start) && step != RollbackChild(a)
    ensures Owed(Next(s, step, true), a, start)
  {
  }

  /** A rollback that got the lock has listed every child there is, half-registered ones
      included, and whatever runs next, each stays owed until its own rollback. */
  lemma {:induction false} RollbackMissesNoChild(s: State, start: nat, steps: seq<Step>, a: Addr)
    requires s.registering == map[] && a in s.childCursors
    requires RollbackChild(a) !in steps
    ensures var t := Run(Next(s, RollbackAll(start), true), steps, true);
            Owed(t, a, start) && Next(t, RollbackChild(a), true).childCursors[a] <= start
  {
    if steps != [] {
      var n := |steps| - 1;
      assert steps[n] in steps;
      RollbackMissesNoChild(s, start, steps[..n], a);
      StepKeepsOwing(Run(Next(s, RollbackAll(start), true), steps[..n], true), steps[n], a, start);
    }
  }

  /** Without the lock a commit slips between a registration's choice and its seed, and
      the new fill starts below blocks the session will never deliver. */
  lemma WithoutTheLockItFails(a: Addr)
    ensures var s := INIT.(registering := map[a := Chosen(0, 5, 5)]);
            var t := Next(Next(Next(s, FillBehind(100), false), SetFill(a), false), SetCursor(a), false);
            && Invariant(s) && !FloorHolds(t)
            && Next(s, FillBehind(100), true) == s
  {
    var s := INIT.(registering := map[a := Chosen(0, 5, 5)]);
    var s1 := s.(resumeFloor := 100, committed := true);
    assert Next(s, FillBehind(100), false) == s1;
    var s2 := s1.(fills := {a}, registering := map[a := FillSet(0, 5, 5)]);
    assert Next(s1, SetFill(a), false) == s2;
    var t := Next(s2, SetCursor(a), false);
    assert Cursor(t, a) == 5 && a in t.fills;
  }
}
