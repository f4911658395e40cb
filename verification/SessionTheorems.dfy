/** Safety of whole runs: any sequence of session stages, each cut short anywhere, with any sink,
    venue, model and clock answers. */
module SessionTheorems {
  import opened Arithmetic
  import opened Policy
  import opened Events
  import opened Journal
  import opened Writer
  import opened WriterTheorems
  import opened Schedule
  import opened Live
  import opened LiveTheorems
  import opened Session
  import Venue

  /** Durable state in which the run does not exist yet; other runs may. */
  ghost predicate Fresh(origin: Origin, world: World) {
    && Settled(origin.crypto, world.wire)
    && Own(origin, world) == []
    && world.risk.None? && world.mark.None? && world.submissions == []
  }

  // ---------------------------------------------------------------- the clock

  /** The day a stage reads from the clock, and how many cycles it wakes on that day. */
  datatype Reading = Reading(day: int, ticks: nat)

  function ReadingOf(op: Op): Option<Reading> {
    match op
    case Recover(_, _, day, _) => Some(Reading(day, 0))
    case CycleTick(wake, _) => if wake.running then Some(Reading(wake.env.day, 1)) else None
    case _ => None
  }

  /** Everything the clock showed, in order. */
  function Readings(ops: seq<Op>): seq<Reading> {
    if ops == [] then []
    else
      var reading := ReadingOf(ops[|ops| - 1]);
      Readings(ops[..|ops| - 1]) + (if reading.Some? then [reading.value] else [])
  }

  /** The latest day shown, from `epoch` on. */
  function LatestDay(readings: seq<Reading>, epoch: int): int {
    if readings == [] then epoch
    else Max(LatestDay(readings[..|readings| - 1], epoch), readings[|readings| - 1].day)
  }

  /** The days a stage reads are not before `before`, in the order it reads them. */
  predicate ReadsForward(op: Op, before: int) {
    match op
    case Recover(first, _, day, _) => before <= first.day <= day
    case CycleTick(wake, _) => wake.running ==> before <= wake.env.day
    case _ => true
  }

  /** The clock never steps back to an earlier day. */
  predicate Forward(ops: seq<Op>, epoch: int) {
    ops == [] ||
    (Forward(ops[..|ops| - 1], epoch)
     && ReadsForward(ops[|ops| - 1], LatestDay(Readings(ops[..|ops| - 1]), epoch)))
  }

  /** The watch after a reading: a visit to the watched day starts, goes on or ends. A visit can
      account for as many orders as it wakes cycles, up to the daily maximum. */
  function WatchOn(watch: Watch, reading: Reading, cap: nat): Watch {
    if reading.day == watch.day then
      watch.(now := Some(reading.day),
             ticks := (if watch.Visiting() then watch.ticks else 0) + reading.ticks)
    else Watch(watch.day, Some(reading.day), Reach(watch, cap), 0)
  }

  function WatchAfter(readings: seq<Reading>, day: int, cap: nat): Watch {
    if readings == [] then Watch(day, None, 0, 0)
    else WatchOn(WatchAfter(readings[..|readings| - 1], day, cap), readings[|readings| - 1], cap)
  }

  /** The most orders the visits to the watched day can account for: each at most the daily maximum,
      and at most the cycles woken in it. */
  function Reach(watch: Watch, cap: nat): nat {
    watch.base + (if watch.Visiting() then Min(cap, watch.ticks) else 0)
  }

  function TermsAfter(arena: Arena, ops: seq<Op>, day: int, epoch: Option<int>): Terms {
    Terms(arena.live, WatchAfter(Readings(ops), day, arena.live.rules.maxOrdersDay),
          if epoch.Some? then Some(LatestDay(Readings(ops), epoch.value)) else None)
  }

  // ---------------------------------------------------------------- the invariant of a run

  /** Memory of a live session, if there is one. */
  function Memory(phase: Phase): Option<LiveRiskState> {
    if phase.StateReady? || phase.Running? then Some(phase.risk) else None
  }

  /** Every durable promise holds, and what a live session remembers agrees with the stored state. */
  ghost predicate Sound(origin: Origin, process: Process, terms: Terms) {
    && Upholds(origin, process.world, Resting(process.world, terms), terms)
    && (Memory(process.phase).Some? ==>
          InStep(Resting(process.world, terms), Memory(process.phase).value, terms))
  }

  /** The visit that is not over has room for so many more orders. */
  predicate Room(world: World, watch: Watch, more: nat) {
    watch.Visiting() ==> Sends(world.submissions, watch.day) + more <= watch.base + watch.ticks
  }

  ghost predicate Guarded(origin: Origin, process: Process, terms: Terms) {
    Sound(origin, process, terms) && Room(process.world, terms.watch, 0)
  }

  /** The terms move on as the clock is read. */
  predicate Moves(op: Op, before: Terms, after: Terms) {
    && after.config == before.config
    && (match ReadingOf(op)
        case None => after.watch == before.watch
        case Some(reading) => after.watch == WatchOn(before.watch, reading, before.Cap()))
    && (after.today.Some? ==>
          && before.today.Some? && ReadsForward(op, before.today.value)
          && after.today.value
             == (if ReadingOf(op).Some? then Max(before.today.value, ReadingOf(op).value.day)
                 else before.today.value))
  }

  /** A state that fitted still fits when the clock is read. */
  lemma ReadingFits(state: LiveRiskState, sent: nat, op: Op, before: Terms, after: Terms)
    requires Moves(op, before, after) && Fits(state, sent, before)
    requires before.watch.Visiting() ==> sent <= before.watch.base + before.watch.ticks
    ensures Fits(state, sent, after)
    ensures ReadingOf(op).Some? && after.watch.Visiting() ==>
              sent + ReadingOf(op).value.ticks <= after.watch.base + after.watch.ticks
    ensures ReadingOf(op).Some? ==> Reads(ReadingOf(op).value.day, state, after)
  {
  }

  lemma SoundFacts(origin: Origin, process: Process, terms: Terms)
    requires Sound(origin, process, terms)
    ensures var track := Resting(process.world, terms);
            && (process.world.risk.Some? ==>
                  Fits(process.world.risk.value, track.sent, terms)
                  && InStep(track, process.world.risk.value, terms))
            && (process.world.risk.None? ==> track.sent == 0)
            && (Memory(process.phase).Some? ==> Fits(Memory(process.phase).value, track.sent, terms))
  {
    TrackHolds(origin, process.world, Resting(process.world, terms), terms);
    RetainsItself(process.world.risk, terms);
    hide Upholds, Retains, Fits, Sends;
  }

  /** Reading the clock keeps every promise and makes room for the cycle woken. */
  lemma ReadingKeeps(origin: Origin, process: Process, op: Op, before: Terms, after: Terms)
    requires Guarded(origin, process, before) && Moves(op, before, after)
    ensures Sound(origin, process, after)
    ensures Room(process.world, after.watch,
                 if ReadingOf(op).Some? then ReadingOf(op).value.ticks else 0)
    ensures ReadingOf(op).Some? && process.world.risk.Some? ==>
              Reads(ReadingOf(op).value.day, process.world.risk.value, after)
    ensures ReadingOf(op).Some? && Memory(process.phase).Some? ==>
              Reads(ReadingOf(op).value.day, Memory(process.phase).value, after)
  {
    SoundFacts(origin, process, before);
    var sent := Sends(process.world.submissions, before.watch.day);
    if process.world.risk.Some? {
      ReadingFits(process.world.risk.value, sent, op, before, after);
    }
    if Memory(process.phase).Some? {
      ReadingFits(Memory(process.phase).value, sent, op, before, after);
    }
    RetainsWhenMoving(origin, process, before, after);
  }

  /** What holds under terms with a forward clock holds under the terms after it. */
  lemma RetainsWhenMoving(origin: Origin, process: Process, before: Terms, after: Terms)
    requires Sound(origin, process, before)
    requires after.config == before.config && after.watch.day == before.watch.day
    requires after.today.Some? ==> before.today.Some?
    requires process.world.risk.Some? ==>
               Fits(process.world.risk.value, Sends(process.world.submissions, before.watch.day), after)
    requires Memory(process.phase).Some? ==>
               Fits(Memory(process.phase).value, Sends(process.world.submissions, before.watch.day), after)
    ensures Sound(origin, process, after)
  {
    hide Settled, Own, AllAnnounced, AllJustified, Gapless, Sends, Fits;
  }

  lemma CarryKeeps(origin: Origin, world: World, plan: Plan, cut: Option<nat>, terms: Terms)
    requires Upholds(origin, world, Resting(world, terms), terms)
    requires Sanctioned(plan, Resting(world, terms), terms)
    ensures var (next, finish) := Carry(origin, world, plan, cut);
            && Upholds(origin, next, Resting(next, terms), terms)
            && Retains(world.risk, next.risk, terms) && Judged(world, next, terms)
            && (Survived(finish) ==> InStep(Resting(next, terms), finish.risk, terms))
            && world.submissions <= next.submissions <= world.submissions + Sendings(plan)
  {
    hide Upholds, Sanctioned, Perform, PerformFirst, Retains, Resting, Judged, Sendings;
    match cut {
      case None =>
        PlanKeeps(origin, world, plan, Resting(world, terms), terms);
        PerformSends(origin, world, plan);
      case Some(count) =>
        CutPlanKeeps(origin, world, plan, count, Resting(world, terms), terms);
        CutPlanSends(origin, world, plan, count);
    }
  }

  /** A stage that sends nothing leaves the room it found; a tick takes at most one order of it. */
  lemma RoomLeft(before: World, after: World, watch: Watch, sendings: seq<Submission>, more: nat)
    requires before.submissions <= after.submissions <= before.submissions + sendings
    requires |sendings| <= more <= 1
    requires Room(before, watch, more)
    ensures Room(after, watch, 0)
  {
    if |after.submissions| > |before.submissions| {
      var n := |before.submissions|;
      assert after.submissions == before.submissions + [after.submissions[n]];
      SendsOneMore(before.submissions, after.submissions[n], watch.day);
    } else {
      assert after.submissions == before.submissions;
    }
  }

  // ---------------------------------------------------------------- the plans of a session

  lemma InitializeSanctioned(arena: Arena, started: bool, contents: StartContents, track: Track,
                             terms: Terms)
    ensures Sanctioned(InitializePlan(arena, started, contents), track, terms)
  {
    var done := End(Prepared, UNLOADED);
    var paused := Then(Note(None, RunPaused, contents.paused), done);
    var handed := Then(Note(None, HandoffSnapshot, contents.handoff), paused);
    assert Sanctioned(done, track, terms);
    assert Advance(track, FlushFirst) == track;
    assert Sanctioned(Then(FlushFirst, done), track, terms);
    hide Sanctioned;
    NoteIsFree(None, RunPaused, contents.paused, done, track, terms);
    NoteIsFree(None, HandoffSnapshot, contents.handoff, paused, track, terms);
    NoteIsFree(None, RunStarted, contents.started, if arena.handoff then handed else paused, track,
               terms);
  }

  lemma RecoverSanctioned(arena: Arena, held: Option<LiveRiskState>, first: FirstState,
                          env: ReconcileEnv, day: int, track: Track, terms: Terms)
    requires track.held == held && (held.None? ==> track.sent == 0)
    requires held.Some? ==> InStep(track, held.value, terms) && Reads(day, held.value, terms)
    requires terms.watch.now == Some(day)
    requires terms.today.Some? ==> first.day <= day <= terms.today.value
    ensures Sanctioned(RecoverPlan(arena, held, first, env, day), track, terms)
  {
    hide ReconcilePlan, ValidInitialAccount;
    var leverage := arena.live.isolatedLeverage;
    if held.Some? {
      ReconcileSanctioned(leverage, None, env, day, held.value, false, track, terms);
    } else if first.account.Some? && ValidInitialAccount(arena, first.account.value) && first.at.Some? {
      var risk := FirstRisk(first);
      var stored := Advance(track, StoreRisk(risk));
      ReconcileSanctioned(leverage, None, env, day, risk, false, stored, terms);
    }
  }

  lemma MissedSanctioned(arena: Arena, index: nat, missing: Missing, risk: LiveRiskState, rest: Plan,
                         track: Track, terms: Terms)
    requires Sanctioned(rest, track, terms)
    ensures Sanctioned(MissedPlan(arena, index, missing, risk, rest), track, terms)
  {
    hide ScheduledCycleAt;
    var plan := MissedPlan(arena, index, missing, risk, rest);
    if plan.Then? {
      assert Advance(track, plan.act) == track;
    }
  }

  lemma {:induction false} CatchUpSanctioned(arena: Arena, completed: nat, due: nat,
                                             missing: nat -> Missing, risk: LiveRiskState, rest: Plan,
                                             track: Track, terms: Terms)
    requires Sanctioned(rest, track, terms)
    ensures Sanctioned(CatchUpPlan(arena, completed, due, missing, risk, rest), track, terms)
    decreases due - completed
  {
    hide MissedPlan;
    if completed < due {
      CatchUpSanctioned(arena, completed + 1, due, missing, risk, rest, track, terms);
      MissedSanctioned(arena, completed, missing(completed), risk,
                       CatchUpPlan(arena, completed + 1, due, missing, risk, rest), track, terms);
    }
  }

  lemma LifecycleSanctioned(kind: Kind, content: Content, risk: LiveRiskState, track: Track, terms: Terms)
    requires InStep(track, risk, terms) && kind != OrderSubmitted
    ensures Sanctioned(LifecyclePlan(kind, content, risk), track, terms)
  {
    var done := End(Completed(false), risk);
    assert Sanctioned(done, track, terms);
    NoteIsFree(None, kind, content, done, track, terms);
  }

  lemma TickSanctioned(arena: Arena, completed: nat, wake: Wake, risk: LiveRiskState, track: Track,
                       terms: Terms)
    requires arena.Expected().Ok? && terms.config == arena.live && track.day == terms.watch.day
    requires InStep(track, risk, terms)
    requires wake.running ==> Reads(wake.env.day, risk, terms)
    ensures Sanctioned(TickPlan(arena, completed, wake, risk), track, terms)
  {
    hide CyclePlan, LifecyclePlan, MissedPlan, ExpectedCycleCount, Retains, Fits;
    LifecycleSanctioned(RunStopped, wake.content, risk, track, terms);
    var done := End(Completed(false), risk);
    assert Sanctioned(done, track, terms);
    MissedSanctioned(arena, completed, wake.missing, risk, done, track, terms);
    if wake.running {
      CycleSanctioned(arena.live, wake.env, risk, track, terms);
    }
  }

  // ---------------------------------------------------------------- one operation

  /** What a stage keeps: the promises, the stored state, and the standing of the orders it sends. */
  ghost predicate Keeps(origin: Origin, process: Process, next: Process, terms: Terms) {
    && Guarded(origin, next, terms)
    && Retains(process.world.risk, next.world.risk, terms)
    && Judged(process.world, next.world, terms)
  }

  lemma InitializeKeeps(arena: Arena, origin: Origin, process: Process, op: Op, terms: Terms)
    requires arena.Expected().Ok? && op.Initialize?
    requires Sound(origin, process, terms) && Room(process.world, terms.watch, 0)
    ensures Keeps(origin, process,
                  InitializeStep(arena, origin, process.world, op.now, op.contents, op.cut), terms)
  {
    hide Upholds, Carry, InitializePlan, ExpectedCycleCount, Own, Cycles, Retains, Resting, Judged, Room;
    var started := Own(origin, process.world) != [];
    var plan := InitializePlan(arena, started, op.contents);
    InitializeSanctioned(arena, started, op.contents, Resting(process.world, terms), terms);
    CarryKeeps(origin, process.world, plan, op.cut, terms);
    InitializeCountsNothing(arena, started, op.contents);
    RoomLeft(process.world, Carry(origin, process.world, plan, op.cut).0, terms.watch, Sendings(plan), 0);
    Unchanged(process.world, terms);
  }

  lemma Unchanged(world: World, terms: Terms)
    ensures Retains(world.risk, world.risk, terms) && Judged(world, world, terms)
  {
  }

  lemma RecoverKeeps(arena: Arena, origin: Origin, process: Process, op: Op, terms: Terms)
    requires op.Recover? && process.phase.ChainReady?
    requires Sound(origin, process, terms) && Room(process.world, terms.watch, 0)
    requires process.world.risk.Some? ==> Reads(op.day, process.world.risk.value, terms)
    requires terms.watch.now == Some(op.day)
    requires terms.today.Some? ==> op.first.day <= op.day <= terms.today.value
    ensures Keeps(origin, process,
                  RecoverStep(arena, origin, process.world, process.phase.completed, op.first, op.env,
                              op.day, op.cut), terms)
  {
    SoundFacts(origin, process, terms);
    hide Upholds, Carry, RecoverPlan, Retains, Judged, Room, Fits, InStep, Reads, Sends;
    var held := process.world.risk;
    var plan := RecoverPlan(arena, held, op.first, op.env, op.day);
    RecoverSanctioned(arena, held, op.first, op.env, op.day, Resting(process.world, terms), terms);
    CarryKeeps(origin, process.world, plan, op.cut, terms);
    RecoverCountsNothing(arena, held, op.first, op.env, op.day);
    RoomLeft(process.world, Carry(origin, process.world, plan, op.cut).0, terms.watch, Sendings(plan), 0);
  }

  lemma ResumeSanctioned(finished: bool, resume: bool, content: Content, risk: LiveRiskState,
                         track: Track, terms: Terms)
    requires InStep(track, risk, terms)
    ensures Sanctioned(ResumePlan(finished, resume, content, risk), track, terms)
  {
    hide LifecyclePlan;
    LifecycleSanctioned(RunStopped, content, risk, track, terms);
    LifecycleSanctioned(RunResumed, content, risk, track, terms);
  }

  lemma CatchUpKeeps(arena: Arena, origin: Origin, process: Process, op: Op, terms: Terms)
    requires arena.Expected().Ok? && op.CatchUp? && process.phase.StateReady?
    requires Sound(origin, process, terms) && Room(process.world, terms.watch, 0)
    ensures Keeps(origin, process,
                  CatchUpStep(arena, origin, process.world, process.phase.completed,
                              process.phase.risk, op.now, op.missing, op.resume, op.content, op.cut),
                  terms)
  {
    hide Upholds, Carry, CatchUpPlan, ResumePlan, DueCycleCount, ExpectedCycleCount, Retains, Judged,
         Room, Resting, InStep;
    var due := DueCycleCount(arena.span, arena.cooldown, op.now);
    Unchanged(process.world, terms);
    if due.Ok? {
      var completed, risk := process.phase.completed, process.phase.risk;
      var track := Resting(process.world, terms);
      var finished := Max(completed, due.value) >= arena.Expected().value;
      var tail := ResumePlan(finished, op.resume, op.content, risk);
      ResumeSanctioned(finished, op.resume, op.content, risk, track, terms);
      CatchUpSanctioned(arena, completed, due.value, op.missing, risk, tail, track, terms);
      var plan := CatchUpPlan(arena, completed, due.value, op.missing, risk, tail);
      CarryKeeps(origin, process.world, plan, op.cut, terms);
      ResumeCountsNothing(finished, op.resume, op.content, risk);
      DueWithinSchedule(arena, op.now);
      CatchUpCounts(arena, completed, due.value, op.missing, risk, tail);
      RoomLeft(process.world, Carry(origin, process.world, plan, op.cut).0, terms.watch,
               Sendings(plan), 0);
    }
  }

  lemma TickKeeps(arena: Arena, origin: Origin, process: Process, op: Op, terms: Terms)
    requires arena.Expected().Ok? && op.CycleTick? && process.phase.Running?
    requires terms.config == arena.live
    requires Sound(origin, process, terms)
    requires Room(process.world, terms.watch, if op.wake.running then 1 else 0)
    requires op.wake.running ==> Reads(op.wake.env.day, process.phase.risk, terms)
    ensures Keeps(origin, process,
                  TickStep(arena, origin, process.world, process.phase.completed, process.phase.risk,
                           op.wake, op.cut), terms)
  {
    hide Upholds, Carry, TickPlan, ExpectedCycleCount, Retains, Judged, Room, InStep, Reads, Sends;
    var completed, risk := process.phase.completed, process.phase.risk;
    var plan := TickPlan(arena, completed, op.wake, risk);
    TickSanctioned(arena, completed, op.wake, risk, Resting(process.world, terms), terms);
    CarryKeeps(origin, process.world, plan, op.cut, terms);
    TickCounts(arena, completed, op.wake, risk);
    RoomLeft(process.world, Carry(origin, process.world, plan, op.cut).0, terms.watch, Sendings(plan),
             if op.wake.running then 1 else 0);
  }

  lemma LifecycleKeeps(origin: Origin, process: Process, op: Op, terms: Terms)
    requires op.Lifecycle? && process.phase.Running?
    requires Sound(origin, process, terms) && Room(process.world, terms.watch, 0)
    ensures Keeps(origin, process,
                  LifecycleStep(origin, process.world, process.phase.completed, process.phase.risk,
                                op.control, op.content, op.cut), terms)
  {
    hide Upholds, Carry, LifecyclePlan, Retains, Judged, Room, Resting, InStep;
    var kind, risk := ControlKind(op.control), process.phase.risk;
    var plan := LifecyclePlan(kind, op.content, risk);
    LifecycleSanctioned(kind, op.content, risk, Resting(process.world, terms), terms);
    CarryKeeps(origin, process.world, plan, op.cut, terms);
    LifecycleCountsNothing(kind, op.content, risk);
    RoomLeft(process.world, Carry(origin, process.world, plan, op.cut).0, terms.watch, Sendings(plan), 0);
  }

  /** One stage of a session, cut anywhere or carried out. */
  lemma StepKeeps(arena: Arena, origin: Origin, process: Process, op: Op, before: Terms, after: Terms)
    requires Guarded(origin, process, before) && Moves(op, before, after)
    requires before.config == arena.live
    ensures Keeps(origin, process, Step(arena, origin, process, op), after)
  {
    ReadingKeeps(origin, process, op, before, after);
    Unchanged(process.world, after);
    RoomToSpare(process.world, op, after);
    ReadNow(op, before, after);
    SoundWhenDown(origin, process, after);
    hide Upholds, Retains, Judged, Room, Reads, InStep, WatchOn, Reach, InitializeStep, RecoverStep,
         CatchUpStep, TickStep, LifecycleStep, ExpectedCycleCount, Keeps, Sound;
    var phase := process.phase;
    if arena.Expected().Ok? {
      match op {
        case Die =>
        case Initialize(_, _, _) =>
          if phase.Down? {
            InitializeKeeps(arena, origin, process, op, after);
          }
        case Recover(_, _, _, _) =>
          if phase.ChainReady? {
            RecoverKeeps(arena, origin, process, op, after);
          }
        case CatchUp(_, _, _, _, _) =>
          if phase.StateReady? {
            CatchUpKeeps(arena, origin, process, op, after);
          }
        case CycleTick(_, _) =>
          if phase.Running? {
            TickKeeps(arena, origin, process, op, after);
          }
        case Lifecycle(_, _, _) =>
          if phase.Running? {
            LifecycleKeeps(origin, process, op, after);
          }
      }
    }
  }

  lemma RoomToSpare(world: World, op: Op, terms: Terms)
    requires Room(world, terms.watch, if ReadingOf(op).Some? then ReadingOf(op).value.ticks else 0)
    ensures Room(world, terms.watch, 0)
  {
  }

  lemma ReadNow(op: Op, before: Terms, after: Terms)
    requires Moves(op, before, after)
    ensures ReadingOf(op).Some? ==> after.watch.now == Some(ReadingOf(op).value.day)
    ensures op.Recover? && after.today.Some? ==> op.first.day <= op.day <= after.today.value
  {
  }

  /** A stage that does nothing, or a process that dies, keeps everything. */
  lemma SoundWhenDown(origin: Origin, process: Process, terms: Terms)
    requires Sound(origin, process, terms) && Room(process.world, terms.watch, 0)
    ensures Keeps(origin, process, process, terms)
    ensures Keeps(origin, process, process.(phase := Down), terms)
  {
    Unchanged(process.world, terms);
    hide Upholds, Retains, Judged, Room, InStep;
  }

  // ---------------------------------------------------------------- every run

  lemma FreshIsGuarded(origin: Origin, world: World, terms: Terms)
    requires Fresh(origin, world) && terms.watch.now.None?
    ensures Guarded(origin, Process(world, Down), terms)
  {
    hide Settled, Own;
  }

  lemma {:induction false} TermsMove(arena: Arena, ops: seq<Op>, day: int, epoch: Option<int>)
    requires ops != [] && (epoch.Some? ==> Forward(ops, epoch.value))
    ensures var n := |ops| - 1;
            Moves(ops[n], TermsAfter(arena, ops[..n], day, epoch), TermsAfter(arena, ops, day, epoch))
  {
    var n := |ops| - 1;
    var before := Readings(ops[..n]);
    hide WatchOn;
    if ReadingOf(ops[n]).Some? {
      var reading := ReadingOf(ops[n]).value;
      assert (before + [reading])[..|before|] == before;
    } else {
      assert before + [] == before;
    }
  }

  /** Whatever the crashes and the environment; with an epoch, when the clock never steps back. */
  lemma {:induction false} EveryRunIsGuarded(arena: Arena, origin: Origin, world: World, ops: seq<Op>,
                                             day: int, epoch: Option<int>)
    requires Fresh(origin, world) && (epoch.Some? ==> Forward(ops, epoch.value))
    ensures Guarded(origin, AfterOps(arena, origin, Process(world, Down), ops),
                    TermsAfter(arena, ops, day, epoch))
  {
    hide Guarded, Step, Fresh, Moves;
    if ops == [] {
      FreshIsGuarded(origin, world, TermsAfter(arena, ops, day, epoch));
    } else {
      var n := |ops| - 1;
      EveryRunIsGuarded(arena, origin, world, ops[..n], day, epoch);
      TermsMove(arena, ops, day, epoch);
      StepKeeps(arena, origin, AfterOps(arena, origin, Process(world, Down), ops[..n]), ops[n],
                TermsAfter(arena, ops[..n], day, epoch), TermsAfter(arena, ops, day, epoch));
      assert Guarded(origin, AfterOps(arena, origin, Process(world, Down), ops),
                     TermsAfter(arena, ops, day, epoch));
    }
  }

  /** Crashes and restarts never reset the risk state. Over any stretch of a run it is never lost, its
      peak never falls, and the orders sent meanwhile were judged against a peak no lower; and if the
      clock never steps back to an earlier day, the trading day never goes back, its starting equity
      stays and its order count never falls, in the stored state and in what orders are judged on. */
  lemma {:induction false} RiskIsNeverReset(arena: Arena, origin: Origin, world: World, ops: seq<Op>,
                                            n: nat, epoch: Option<int>)
    requires Fresh(origin, world) && n <= |ops| && (epoch.Some? ==> Forward(ops, epoch.value))
    ensures var earlier := AfterOps(arena, origin, Process(world, Down), ops[..n]).world;
            var later := AfterOps(arena, origin, Process(world, Down), ops).world;
            var terms := TermsAfter(arena, ops, 0, epoch);
            Retains(earlier.risk, later.risk, terms) && Judged(earlier, later, terms)
  {
    hide Guarded, Step, Fresh, Moves, Retains, Judged;
    var start := Process(world, Down);
    var terms := TermsAfter(arena, ops, 0, epoch);
    if n == |ops| {
      assert ops[..n] == ops;
      Unchanged(AfterOps(arena, origin, start, ops).world, terms);
    } else {
      var m := |ops| - 1;
      assert ops[..m][..n] == ops[..n];
      var before := AfterOps(arena, origin, start, ops[..m]);
      RiskIsNeverReset(arena, origin, world, ops[..m], n, epoch);
      EveryRunIsGuarded(arena, origin, world, ops[..m], 0, epoch);
      TermsMove(arena, ops, 0, epoch);
      StepKeeps(arena, origin, before, ops[m], TermsAfter(arena, ops[..m], 0, epoch), terms);
      var earlier := AfterOps(arena, origin, start, ops[..n]).world;
      SameClaims(earlier, before.world, TermsAfter(arena, ops[..m], 0, epoch), terms);
      JudgedOnward(earlier, before.world, AfterOps(arena, origin, start, ops).world, terms);
    }
  }

  /** What is retained does not depend on how far the clock has come. */
  lemma SameClaims(a: World, b: World, before: Terms, after: Terms)
    requires Retains(a.risk, b.risk, before) && Judged(a, b, before)
    requires after.today.Some? <==> before.today.Some?
    ensures Retains(a.risk, b.risk, after) && Judged(a, b, after)
  {
  }

  /** For any clock and any crashes: the orders sent by cycles dated to a day are at most what its
      visits can account for. */
  lemma ClockBoundsOrders(arena: Arena, origin: Origin, world: World, ops: seq<Op>, day: int)
    requires Fresh(origin, world)
    ensures var cap := arena.live.rules.maxOrdersDay;
            Sends(AfterOps(arena, origin, Process(world, Down), ops).world.submissions, day)
            <= Reach(WatchAfter(Readings(ops), day, cap), cap)
  {
    hide Sound, Sends, AfterOps, Fresh, WatchAfter, Readings, InStep;
    EveryRunIsGuarded(arena, origin, world, ops, day, None);
    var after := AfterOps(arena, origin, Process(world, Down), ops);
    var terms := TermsAfter(arena, ops, day, None);
    SoundFacts(origin, after, terms);
    WatchesDay(Readings(ops), day, terms.Cap());
  }

  lemma {:induction false} WatchesDay(readings: seq<Reading>, day: int, cap: nat)
    ensures WatchAfter(readings, day, cap).day == day
  {
    if readings != [] {
      WatchesDay(readings[..|readings| - 1], day, cap);
    }
  }

  /** The watched day has been visited at most once by a clock that shows `latest` at most. */
  predicate VisitedOnce(watch: Watch, latest: int, cap: nat) {
    && Reach(watch, cap) <= cap
    && (watch.now.Some? ==> watch.now.value == latest)
    && (watch.base > 0 ==> latest > watch.day)
  }

  lemma VisitOnward(watch: Watch, reading: Reading, latest: int, cap: nat)
    requires VisitedOnce(watch, latest, cap) && latest <= reading.day
    ensures VisitedOnce(WatchOn(watch, reading, cap), reading.day, cap)
  {
  }

  /** A clock that never steps back visits a day once. */
  lemma {:induction false} ForwardVisitsOnce(ops: seq<Op>, epoch: int, day: int, cap: nat)
    requires Forward(ops, epoch)
    ensures VisitedOnce(WatchAfter(Readings(ops), day, cap), LatestDay(Readings(ops), epoch), cap)
  {
    hide VisitedOnce, WatchOn;
    if ops == [] {
      assert VisitedOnce(Watch(day, None, 0, 0), epoch, cap) by { NeverVisited(day, epoch, cap); }
    } else {
      var n := |ops| - 1;
      ForwardVisitsOnce(ops[..n], epoch, day, cap);
      var before := Readings(ops[..n]);
      if ReadingOf(ops[n]).Some? {
        var reading := ReadingOf(ops[n]).value;
        assert (before + [reading])[..|before|] == before;
        WatchesDay(before, day, cap);
        VisitOnward(WatchAfter(before, day, cap), reading, LatestDay(before, epoch), cap);
      } else {
        assert Readings(ops) == before;
      }
    }
  }

  lemma NeverVisited(day: int, latest: int, cap: nat)
    ensures VisitedOnce(Watch(day, None, 0, 0), latest, cap)
  {
  }

  /** Crash-safe daily cap: with a clock that never steps back to an earlier day, cycles dated to one
      trading day never send more orders than the policy's daily maximum, over any number of crashes
      and restarts. */
  lemma DailyCapHolds(arena: Arena, origin: Origin, world: World, ops: seq<Op>, epoch: int, day: int)
    requires Fresh(origin, world) && Forward(ops, epoch)
    ensures Sends(AfterOps(arena, origin, Process(world, Down), ops).world.submissions, day)
            <= arena.live.rules.maxOrdersDay
  {
    hide Sends, Fresh, Forward, AfterOps, Reach, WatchAfter, Readings, LatestDay;
    ClockBoundsOrders(arena, origin, world, ops, day);
    ForwardVisitsOnce(ops, epoch, day, arena.live.rules.maxOrdersDay);
  }

  /** Whatever the clock and the crashes, stored fill windows cover every instant from the first stored
      reconciliation time to the current one, and so do the funding windows. */
  lemma WindowsLeaveNoGap(arena: Arena, origin: Origin, world: World, ops: seq<Op>, instant: int)
    requires Fresh(origin, world)
    ensures var after := AfterOps(arena, origin, Process(world, Down), ops).world;
            && (after.risk.Some? <==> after.mark.Some?)
            && (after.risk.Some? && after.mark.value < after.risk.value.lastReconciliationMs
                && after.mark.value <= instant <= after.risk.value.lastReconciliationMs ==>
                  && Reported(Own(origin, after), FillsReported, instant)
                  && Reported(Own(origin, after), FundingReported, instant))
  {
    hide Fresh, AfterOps, Settled, RunRows, Reported;
    EveryRunIsGuarded(arena, origin, world, ops, 0, None);
  }

  /** The server's log of the run is a gapless prefix of the local chain throughout. */
  lemma RunsAreSettled(arena: Arena, origin: Origin, world: World, ops: seq<Op>)
    requires Fresh(origin, world)
    ensures Settled(origin.crypto, AfterOps(arena, origin, Process(world, Down), ops).world.wire)
  {
    hide Fresh, AfterOps, Settled;
    EveryRunIsGuarded(arena, origin, world, ops, 0, None);
  }

  // ---------------------------------------------------------------- cycle accounting

  /** The journal accounts for no more cycles than the schedule holds, and a session that has counted
      them knows exactly how many. */
  ghost predicate Accounted(arena: Arena, origin: Origin, process: Process)
    requires arena.Expected().Ok?
  {
    var cycles := Cycles(Own(origin, process.world));
    && Settled(origin.crypto, process.world.wire)
    && cycles <= arena.Expected().value
    && (process.phase.ChainReady? || process.phase.StateReady? || process.phase.Running? ==>
          process.phase.completed == cycles)
  }

  lemma CarryCounts(origin: Origin, world: World, plan: Plan, cut: Option<nat>)
    requires Settled(origin.crypto, world.wire)
    ensures var (next, finish) := Carry(origin, world, plan, cut);
            && Settled(origin.crypto, next.wire)
            && Cycles(Own(origin, next)) <= Cycles(Own(origin, world)) + PlanCycles(plan)
            && (finish.Ended? ==>
                  Cycles(Own(origin, next)) == Cycles(Own(origin, world)) + PlanCycles(plan))
  {
    hide Perform, PerformFirst, Settled, Own, Cycles, PlanCycles;
    match cut {
      case None => PlanCounts(origin, world, plan);
      case Some(count) => CutPlanCounts(origin, world, plan, count);
    }
  }

  lemma InitializeCountsNothing(arena: Arena, started: bool, contents: StartContents)
    ensures var plan := InitializePlan(arena, started, contents);
            PlanCycles(plan) == 0 && Sendings(plan) == []
  {
    var done := End(Prepared, UNLOADED);
    var paused := Then(Note(None, RunPaused, contents.paused), done);
    QuietAct(paused.act, done);
    QuietAct(FlushFirst, done);
    QuietAct(Note(None, HandoffSnapshot, contents.handoff), paused);
    var plan := InitializePlan(arena, started, contents);
    QuietAct(plan.act, plan.rest);
  }

  lemma RecoverCountsNothing(arena: Arena, held: Option<LiveRiskState>, first: FirstState,
                             env: ReconcileEnv, day: int)
    ensures var plan := RecoverPlan(arena, held, first, env, day);
            PlanCycles(plan) == 0 && Sendings(plan) == []
  {
    hide ReconcilePlan, ValidInitialAccount;
    var leverage := arena.live.isolatedLeverage;
    if held.Some? {
      ReconcileCountsNothing(leverage, None, env, day, held.value, false);
    } else if first.account.Some? && first.at.Some? {
      ReconcileCountsNothing(leverage, None, env, day, FirstRisk(first), false);
      QuietAct(StoreRisk(FirstRisk(first)),
               ReconcilePlan(leverage, None, env, day, FirstRisk(first), false));
    }
  }

  /** Catching up counts one cycle for each boundary, whose start the schedule knows. */
  lemma {:induction false} CatchUpCounts(arena: Arena, completed: nat, due: nat,
                                         missing: nat -> Missing, risk: LiveRiskState, rest: Plan)
    requires arena.Expected().Ok? && due <= arena.Expected().value
    ensures var plan := CatchUpPlan(arena, completed, due, missing, risk, rest);
            PlanCycles(plan) == Max(due - completed, 0) + PlanCycles(rest)
            && Sendings(plan) == Sendings(rest)
    decreases due - completed
  {
    hide ExpectedCycleCount, ScheduledCycleAt;
    if completed < due {
      CatchUpCounts(arena, completed + 1, due, missing, risk, rest);
      EveryCycleFits(arena.span, arena.cooldown, completed);
      var plan := CatchUpPlan(arena, completed, due, missing, risk, rest);
      QuietAct(plan.act, plan.rest);
    }
  }

  lemma LifecycleCountsNothing(kind: Kind, content: Content, risk: LiveRiskState)
    requires !IsCycle(kind)
    ensures var plan := LifecyclePlan(kind, content, risk);
            PlanCycles(plan) == 0 && Sendings(plan) == []
  {
    QuietAct(Note(None, kind, content), End(Completed(false), risk));
  }

  lemma ResumeCountsNothing(finished: bool, resume: bool, content: Content, risk: LiveRiskState)
    ensures var plan := ResumePlan(finished, resume, content, risk);
            PlanCycles(plan) == 0 && Sendings(plan) == []
  {
    LifecycleCountsNothing(RunStopped, content, risk);
    LifecycleCountsNothing(RunResumed, content, risk);
  }

  /** A tick counts at most once, and sends at most one order if it runs a cycle. */
  lemma TickCounts(arena: Arena, completed: nat, wake: Wake, risk: LiveRiskState)
    requires arena.Expected().Ok?
    ensures var plan := TickPlan(arena, completed, wake, risk);
            && (Closing(arena, completed, wake.now) ==> PlanCycles(plan) == 0)
            && PlanCycles(plan) <= 1
            && |Sendings(plan)| <= if wake.running then 1 else 0
  {
    hide CyclePlan, LifecyclePlan, ExpectedCycleCount, ScheduledCycleAt;
    LifecycleCountsNothing(RunStopped, wake.content, risk);
    CycleCountsOnce(arena.live, wake.env, risk);
  }

  /** Every ending a session survives comes from a tick that counted. */
  lemma SurvivedTickCounts(arena: Arena, origin: Origin, world: World, completed: nat, wake: Wake,
                           risk: LiveRiskState, cut: Option<nat>)
    requires arena.Expected().Ok? && !Closing(arena, completed, wake.now)
    ensures var plan := TickPlan(arena, completed, wake, risk);
            Survived(Carry(origin, world, plan, cut).1) ==> PlanCycles(plan) == 1
  {
    hide CyclePlan, ExpectedCycleCount, DoAct, PlanCycles, PerformFirst;
    CycleCountsOnce(arena.live, wake.env, risk);
    EveryCycleFits(arena.span, arena.cooldown, completed);
    assert completed < arena.Expected().value;
    var at := ScheduledCycleAt(arena.span, arena.cooldown, completed);
    MissedCountsOnce(arena, completed, wake.missing, risk, End(Completed(false), risk));
  }

  lemma MissedCountsOnce(arena: Arena, index: nat, missing: Missing, risk: LiveRiskState, rest: Plan)
    requires ScheduledCycleAt(arena.span, arena.cooldown, index).Ok? && rest.End?
    ensures PlanCycles(MissedPlan(arena, index, missing, risk, rest)) == 1
  {
    hide ScheduledCycleAt;
    assert PlanCycles(rest) == 0;
  }

  lemma StepAccounts(arena: Arena, origin: Origin, process: Process, op: Op)
    requires arena.Expected().Ok? && Accounted(arena, origin, process)
    ensures Accounted(arena, origin, Step(arena, origin, process, op))
  {
    hide Carry, InitializePlan, RecoverPlan, CatchUpPlan, LifecyclePlan, TickPlan, DueCycleCount,
         ExpectedCycleCount, Own, Cycles, Settled, PlanCycles;
    var Process(world, phase) := process;
    match op {
      case Die =>
      case Initialize(now, contents, cut) =>
        var started := Own(origin, world) != [];
        InitializeCountsNothing(arena, started, contents);
        CarryCounts(origin, world, InitializePlan(arena, started, contents), cut);
      case Recover(first, env, day, cut) =>
        RecoverCountsNothing(arena, world.risk, first, env, day);
        CarryCounts(origin, world, RecoverPlan(arena, world.risk, first, env, day), cut);
      case CatchUp(now, missing, resume, content, cut) =>
        if phase.StateReady? {
          CatchUpAccounts(arena, origin, process, op);
        }
      case CycleTick(wake, cut) =>
        if phase.Running? {
          TickAccounts(arena, origin, process, op);
        }
      case Lifecycle(control, content, cut) =>
        if phase.Running? {
          LifecycleCountsNothing(ControlKind(control), content, phase.risk);
          CarryCounts(origin, world, LifecyclePlan(ControlKind(control), content, phase.risk), cut);
        }
    }
  }

  lemma CatchUpAccounts(arena: Arena, origin: Origin, process: Process, op: Op)
    requires arena.Expected().Ok? && Accounted(arena, origin, process)
    requires op.CatchUp? && process.phase.StateReady?
    ensures Accounted(arena, origin,
                      CatchUpStep(arena, origin, process.world, process.phase.completed,
                                  process.phase.risk, op.now, op.missing, op.resume, op.content, op.cut))
  {
    hide Carry, CatchUpPlan, LifecyclePlan, DueCycleCount, ExpectedCycleCount, Own, Cycles, Settled;
    var due := DueCycleCount(arena.span, arena.cooldown, op.now);
    if due.Ok? {
      var completed, risk := process.phase.completed, process.phase.risk;
      DueWithinSchedule(arena, op.now);
      var finished := Max(completed, due.value) >= arena.Expected().value;
      var tail := ResumePlan(finished, op.resume, op.content, risk);
      ResumeCountsNothing(finished, op.resume, op.content, risk);
      hide ResumePlan, PlanCycles;
      CatchUpCounts(arena, completed, due.value, op.missing, risk, tail);
      CarryCounts(origin, process.world,
                  CatchUpPlan(arena, completed, due.value, op.missing, risk, tail), op.cut);
    }
  }

  lemma DueWithinSchedule(arena: Arena, now: Instant)
    requires arena.Expected().Ok?
    ensures DueCycleCount(arena.span, arena.cooldown, now).Ok?
    ensures DueCycleCount(arena.span, arena.cooldown, now).value <= arena.Expected().value
  {
    ScheduleHasCycles(arena);
    DueIsExact(arena.span, arena.cooldown, now, 0);
  }

  lemma ScheduleHasCycles(arena: Arena)
    requires arena.Expected().Ok?
    ensures arena.Expected().value > 0
  {
    hide WholeSeconds;
    AtMostFloor(1, WholeSeconds(arena.span.endsAt - arena.span.startsAt), arena.cooldown);
  }

  lemma TickAccounts(arena: Arena, origin: Origin, process: Process, op: Op)
    requires arena.Expected().Ok? && Accounted(arena, origin, process)
    requires op.CycleTick? && process.phase.Running?
    ensures Accounted(arena, origin,
                      TickStep(arena, origin, process.world, process.phase.completed,
                               process.phase.risk, op.wake, op.cut))
  {
    hide Carry, TickPlan, ExpectedCycleCount, Own, Cycles, Settled, PlanCycles;
    var completed, risk := process.phase.completed, process.phase.risk;
    TickCounts(arena, completed, op.wake, risk);
    if !Closing(arena, completed, op.wake.now) {
      SurvivedTickCounts(arena, origin, process.world, completed, op.wake, risk, op.cut);
    }
    CarryCounts(origin, process.world, TickPlan(arena, completed, op.wake, risk), op.cut);
  }

  /** Cycle accounting, whatever the clock and the crashes: started and missed cycles in the journal
      never exceed the schedule, and equal the counter of every live session at every stage. */
  lemma {:induction false} EveryRunIsAccounted(arena: Arena, origin: Origin, world: World, ops: seq<Op>)
    requires arena.Expected().Ok? && Fresh(origin, world)
    ensures Accounted(arena, origin, AfterOps(arena, origin, Process(world, Down), ops))
  {
    hide Step, Settled, Own, ExpectedCycleCount;
    if ops != [] {
      var n := |ops| - 1;
      EveryRunIsAccounted(arena, origin, world, ops[..n]);
      hide Accounted;
      StepAccounts(arena, origin, AfterOps(arena, origin, Process(world, Down), ops[..n]), ops[n]);
    }
  }

  /** A session that finishes catching up has accounted for every boundary that has passed, and
      goes on with exactly the first one that has not been accounted for. */
  lemma CatchUpLeavesNothingDue(arena: Arena, origin: Origin, process: Process, op: Op, index: nat)
    requires arena.Expected().Ok? && op.CatchUp? && process.phase.StateReady?
    requires Step(arena, origin, process, op).phase.Running?
    requires index < arena.Expected().value
    ensures var completed := Step(arena, origin, process, op).phase.completed;
            && process.phase.completed <= completed < arena.Expected().value
            && ScheduledCycleAt(arena.span, arena.cooldown, index).Ok?
            && (ScheduledCycleAt(arena.span, arena.cooldown, index).value <= op.now ==>
                  index < completed)
            && (process.phase.completed <= index < completed ==>
                  ScheduledCycleAt(arena.span, arena.cooldown, index).value <= op.now)
  {
    hide Carry, CatchUpPlan, ResumePlan, DueCycleCount, ExpectedCycleCount, ScheduledCycleAt;
    DueIsExact(arena.span, arena.cooldown, op.now, index);
  }

  // ---------------------------------------------------------------- every order of a run

  /** The order is what a wake-up of the running session sent: it answers the environment the wake-up
      met, from the risk state the session held. */
  predicate SentBy(config: LiveConfig, before: Process, op: Op, submission: Submission) {
    && before.phase.Running? && op.CycleTick? && op.wake.running && op.wake.env.account.Some?
    && var env := op.wake.env;
       Answers(config, env, UpdateRiskState(before.phase.risk, env.account.value, env.day), submission)
  }

  lemma CarrySends(origin: Origin, world: World, plan: Plan, cut: Option<nat>)
    ensures var after := Carry(origin, world, plan, cut).0;
            world.submissions <= after.submissions <= world.submissions + Sendings(plan)
  {
    hide Perform, PerformFirst;
    match cut {
      case None => PerformSends(origin, world, plan);
      case Some(count) => CutPlanSends(origin, world, plan, count);
    }
  }

  /** What a wake-up may send. */
  lemma TickSendings(arena: Arena, process: Process, op: Op)
    requires arena.Expected().Ok? && process.phase.Running? && op.CycleTick?
    ensures var sent := Sendings(TickPlan(arena, process.phase.completed, op.wake, process.phase.risk));
            |sent| <= 1 && (sent != [] ==> SentBy(arena.live, process, op, sent[0]))
  {
    var completed, risk, wake := process.phase.completed, process.phase.risk, op.wake;
    TickCounts(arena, completed, wake, risk);
    LifecycleCountsNothing(RunStopped, wake.content, risk);
    CycleCountsOnce(arena.live, wake.env, risk);
    CycleBegins(arena.live, wake.env, risk);
    hide CyclePlan, LifecyclePlan, MissedPlan, ExpectedCycleCount, Answers, UpdateRiskState, Sendings;
  }

  /** A stage sends at most one order, and only as a wake-up. */
  lemma StepSends(arena: Arena, origin: Origin, process: Process, op: Op)
    ensures var before, after := process.world.submissions,
                                 Step(arena, origin, process, op).world.submissions;
            && before <= after && |after| <= |before| + 1
            && (|after| > |before| ==> SentBy(arena.live, process, op, after[|before|]))
  {
    hide Carry, InitializePlan, RecoverPlan, CatchUpPlan, LifecyclePlan, TickPlan, DueCycleCount,
         ExpectedCycleCount, Own, Cycles, SentBy, Sendings;
    var Process(world, phase) := process;
    if arena.Expected().Ok? {
      match op {
        case Die =>
        case Initialize(_, contents, cut) =>
          var started := Own(origin, world) != [];
          InitializeCountsNothing(arena, started, contents);
          CarrySends(origin, world, InitializePlan(arena, started, contents), cut);
        case Recover(first, env, day, cut) =>
          RecoverCountsNothing(arena, world.risk, first, env, day);
          CarrySends(origin, world, RecoverPlan(arena, world.risk, first, env, day), cut);
        case CatchUp(_, _, _, _, _) =>
          if phase.StateReady? {
            CatchUpSends(arena, origin, process, op);
          }
        case CycleTick(wake, cut) =>
          if phase.Running? {
            TickSendings(arena, process, op);
            CarrySends(origin, world, TickPlan(arena, phase.completed, wake, phase.risk), cut);
          }
        case Lifecycle(control, content, cut) =>
          if phase.Running? {
            LifecycleCountsNothing(ControlKind(control), content, phase.risk);
            CarrySends(origin, world, LifecyclePlan(ControlKind(control), content, phase.risk), cut);
          }
      }
    }
  }

  lemma CatchUpSends(arena: Arena, origin: Origin, process: Process, op: Op)
    requires arena.Expected().Ok? && op.CatchUp? && process.phase.StateReady?
    ensures Step(arena, origin, process, op).world.submissions == process.world.submissions
  {
    hide Carry, CatchUpPlan, LifecyclePlan, DueCycleCount, ExpectedCycleCount;
    DueWithinSchedule(arena, op.now);
    var completed, risk := process.phase.completed, process.phase.risk;
    var due := DueCycleCount(arena.span, arena.cooldown, op.now).value;
    var finished := Max(completed, due) >= arena.Expected().value;
    var tail := ResumePlan(finished, op.resume, op.content, risk);
    ResumeCountsNothing(finished, op.resume, op.content, risk);
    hide ResumePlan;
    CatchUpCounts(arena, completed, due, op.missing, risk, tail);
    CarrySends(origin, process.world, CatchUpPlan(arena, completed, due, op.missing, risk, tail), op.cut);
  }

  /** Every order of a run is the answer of one of its wake-ups, the one that sent it. */
  lemma {:induction false} OrdersAnswerWakeUps(arena: Arena, origin: Origin, world: World, ops: seq<Op>,
                                               i: nat)
    requires world.submissions == []
    requires i < |AfterOps(arena, origin, Process(world, Down), ops).world.submissions|
    ensures exists j :: 0 <= j < |ops| && SentAt(arena, origin, world, ops, i, j)
  {
    hide Step, SentBy;
    var n := |ops| - 1;
    var before := AfterOps(arena, origin, Process(world, Down), ops[..n]);
    StepSends(arena, origin, before, ops[n]);
    if i < |before.world.submissions| {
      OrdersAnswerWakeUps(arena, origin, world, ops[..n], i);
      var j :| 0 <= j < n && SentAt(arena, origin, world, ops[..n], i, j);
      assert ops[..n][..j] == ops[..j];
      assert SentAt(arena, origin, world, ops, i, j);
    } else {
      assert SentAt(arena, origin, world, ops, i, n);
    }
  }

  /** The wake-up at place `j` sent the order at place `i`. */
  predicate SentAt(arena: Arena, origin: Origin, world: World, ops: seq<Op>, i: nat, j: nat)
    requires j < |ops|
  {
    var sent := AfterOps(arena, origin, Process(world, Down), ops).world.submissions;
    var before := AfterOps(arena, origin, Process(world, Down), ops[..j]);
    && i == |before.world.submissions| < |sent|
    && SentBy(arena.live, before, ops[j], sent[i])
  }

  /** The server holds an event of the run that announced the order under its client id. */
  ghost predicate KnownToServer(origin: Origin, wire: Wire, submission: Submission) {
    var sent := OfRun(wire.server, origin.runId);
    exists k :: 0 <= k < |sent| && sent[k].fields.kind == OrderSubmitted
                && sent[k].fields.payload == AnnouncementOf(submission)
  }

  lemma GuardedIsKnown(origin: Origin, process: Process, terms: Terms, i: nat)
    requires Guarded(origin, process, terms) && i < |process.world.submissions|
    ensures KnownToServer(origin, process.world.wire, process.world.submissions[i])
    ensures Justified(terms.config, process.world.submissions[i])
  {
    hide OfRun, RunRows, Justified;
    var wire, submission := process.world.wire, process.world.submissions[i];
    var own, sent := Own(origin, process.world), OfRun(wire.server, origin.runId);
    assert RunSettled(own, sent);
    assert Announced(own, AnnouncementOf(submission));
    var k :| 0 <= k < |own| && Announces(own[k], AnnouncementOf(submission));
    assert sent[k] == Envelopes(own)[k];
  }

  /** Whatever the clock and the crashes, every order sent to the venue answers the wake-up that sent
      it: it is the policy's verdict on the account and book refreshed for it, the model's proposal and
      the risk state of its day. It respects every limit of the arena and is covered by that book, and the
      server holds the event that announced it. */
  lemma SubmissionsAreJustified(arena: Arena, origin: Origin, world: World, ops: seq<Op>, i: nat)
    requires Fresh(origin, world)
    requires i < |AfterOps(arena, origin, Process(world, Down), ops).world.submissions|
    ensures var after := AfterOps(arena, origin, Process(world, Down), ops).world;
            var submission := after.submissions[i];
            && (exists j :: 0 <= j < |ops| && SentAt(arena, origin, world, ops, i, j))
            && KnownToServer(origin, after.wire, submission)
            && Justified(arena.live, submission)
            && Askable(arena.live, submission.basis)
            && WithinDisplay(submission.basis, submission.order)
            && WithinRules(arena.live, submission)
  {
    OrdersAnswerWakeUps(arena, origin, world, ops, i);
    hide Fresh, AfterOps, Justified, WithinDisplay, WithinRules, Askable, SentAt, KnownToServer, Guarded;
    EveryRunIsGuarded(arena, origin, world, ops, 0, None);
    var after := AfterOps(arena, origin, Process(world, Down), ops);
    GuardedIsKnown(origin, after, TermsAfter(arena, ops, 0, None), i);
    DispatchedWithinDisplay(arena.live, after.world.submissions[i]);
    JustifiedWithinRules(arena.live, after.world.submissions[i]);
  }

  /** No order of a run fails the venue's encoder, as long as the venue's table has the lot of the
      view the order was decided on. */
  lemma SubmissionsEncode(arena: Arena, origin: Origin, world: World, ops: seq<Op>, i: nat,
                          assets: map<Asset, Venue.CoreAsset>)
    requires Fresh(origin, world)
    requires i < |AfterOps(arena, origin, Process(world, Down), ops).world.submissions|
    requires var submission := AfterOps(arena, origin, Process(world, Down), ops).world.submissions[i];
             && submission.order.symbol in assets
             && assets[submission.order.symbol].sizeDecimals == submission.basis.view.sizeDecimals
    ensures Venue.Encodable(AfterOps(arena, origin, Process(world, Down), ops).world.submissions[i].order,
                            assets)
  {
    hide Fresh, AfterOps, SentAt, EvaluateProposal, Venue.Encodable;
    SubmissionsAreJustified(arena, origin, world, ops, i);
    var submission := AfterOps(arena, origin, Process(world, Down), ops).world.submissions[i];
    JustifiedEncodes(arena.live, submission, assets);
  }

  lemma JustifiedEncodes(config: LiveConfig, submission: Submission, assets: map<Asset, Venue.CoreAsset>)
    requires Justified(config, submission)
    requires submission.order.symbol in assets
    requires assets[submission.order.symbol].sizeDecimals == submission.basis.view.sizeDecimals
    ensures Venue.Encodable(submission.order, assets)
  {
    JustifiedQuestion(config, submission);
    hide Justified, EvaluateProposal, Venue.Encodable;
    var basis := submission.basis;
    Venue.ApprovedOrdersEncode(MarketableProposal(basis), DispatchContext(config, basis),
                               submission.order, assets);
  }
}
