/** A whole run: sessions that start, recover, catch up with the schedule, tick, and die anywhere. */
module Session {
  import opened Arithmetic
  import opened Policy
  import opened Events
  import opened Journal
  import opened Writer
  import opened Schedule
  import opened Live

  datatype Arena = Arena(
    live: LiveConfig,
    span: Span,
    cooldown: u32,
    exactCapital: bool,
    handoff: bool)
  {
    function Expected(): Result<u64, ScheduleError> {
      ExpectedCycleCount(span, cooldown)
    }
  }

  /** Identity and signing time of a missed cycle's event. */
  datatype Missing = Missing(cycleId: nat, occurredAt: int)

  /** The events a new run starts with. */
  datatype StartContents = StartContents(started: Content, handoff: Content, paused: Content)

  /** Stands in for a risk state that has not been read yet. */
  const UNLOADED: LiveRiskState := LiveRiskState(0, 0, 0, 0, 0)

  /** A ticketed mainnet arena starts from exactly its capital, any other from a positive equity. */
  predicate ValidInitialAccount(arena: Arena, account: AccountSnapshot) {
    if arena.exactCapital then
      && account.equity == arena.live.startingCapital
      && account.withdrawable == arena.live.startingCapital
      && account.positions == map[]
    else account.equity > 0
  }

  // ---------------------------------------------------------------- plans

  /** A run that has events only flushes; a new one records how it starts. */
  function InitializePlan(arena: Arena, started: bool, contents: StartContents): Plan {
    var paused := Then(Note(None, RunPaused, contents.paused), End(Prepared, UNLOADED));
    if started then Then(FlushFirst, End(Prepared, UNLOADED))
    else
      Then(Note(None, RunStarted, contents.started),
      if arena.handoff then Then(Note(None, HandoffSnapshot, contents.handoff), paused) else paused)
  }

  /** What a session meets when it loads or creates its risk state. */
  datatype FirstState = FirstState(day: int, at: Option<u64>, account: Option<AccountSnapshot>)

  function FirstRisk(first: FirstState): LiveRiskState
    requires first.at.Some? && first.account.Some?
  {
    var equity := first.account.value.equity;
    LiveRiskState(first.day, equity, equity, 0, first.at.value)
  }

  /** Load the stored risk state, or store a first one; then reconcile from it. */
  function RecoverPlan(arena: Arena, held: Option<LiveRiskState>, first: FirstState,
                       env: ReconcileEnv, day: int): Plan
  {
    var leverage := arena.live.isolatedLeverage;
    if held.Some? then ReconcilePlan(leverage, None, env, day, held.value, false)
    else if first.account.None? then End(VenueFailed, UNLOADED)
    else if !ValidInitialAccount(arena, first.account.value) then End(PolicyViolated, UNLOADED)
    else if first.at.None? then End(RiskStateInvalid, UNLOADED)
    else
      Then(StoreRisk(FirstRisk(first)),
      ReconcilePlan(leverage, None, env, day, FirstRisk(first), false))
  }

  function MissedPlan(arena: Arena, index: nat, missing: Missing, risk: LiveRiskState, rest: Plan)
    : Plan
  {
    match ScheduledCycleAt(arena.span, arena.cooldown, index)
    case Err(_) => End(ScheduleInvalid, risk)
    case Ok(at) =>
      Then(EmitEvent(Draft(Some(missing.cycleId), MissedCycle, missing.occurredAt, Boundary(at))),
      rest)
  }

  /** One missed event for each boundary from `completed` up to `due`. */
  function CatchUpPlan(arena: Arena, completed: nat, due: nat, missing: nat -> Missing,
                       risk: LiveRiskState, rest: Plan): Plan
    decreases due - completed
  {
    if completed >= due then rest
    else
      MissedPlan(arena, completed, missing(completed), risk,
                 CatchUpPlan(arena, completed + 1, due, missing, risk, rest))
  }

  function LifecyclePlan(kind: Kind, content: Content, risk: LiveRiskState): Plan {
    Then(Note(None, kind, content), End(Completed(false), risk))
  }

  /** Stop when the schedule is used up, otherwise resume if the run was running. */
  function ResumePlan(finished: bool, resume: bool, content: Content, risk: LiveRiskState): Plan {
    if finished then LifecyclePlan(RunStopped, content, risk)
    else if resume then LifecyclePlan(RunResumed, content, risk)
    else End(Completed(false), risk)
  }

  /** Whether the wake-up ends the run instead of deciding. */
  predicate Closing(arena: Arena, completed: nat, now: Instant)
    requires arena.Expected().Ok?
  {
    completed >= arena.Expected().value || now >= arena.span.endsAt
  }

  /** What one wake-up of the schedule meets. */
  datatype Wake = Wake(now: Instant, running: bool, env: CycleEnv, missing: Missing, content: Content)

  function TickPlan(arena: Arena, completed: nat, wake: Wake, risk: LiveRiskState): Plan
    requires arena.Expected().Ok?
  {
    if Closing(arena, completed, wake.now) then LifecyclePlan(RunStopped, wake.content, risk)
    else if !wake.running then
      MissedPlan(arena, completed, wake.missing, risk, End(Completed(false), risk))
    else CyclePlan(arena.live, wake.env, risk)
  }

  // ---------------------------------------------------------------- the run

  /** How far a session has come; the counter and the risk state it holds die with it. */
  datatype Phase =
    | Down
    | ChainReady(completed: nat)
    | StateReady(completed: nat, risk: LiveRiskState)
    | Running(completed: nat, risk: LiveRiskState)
    | Over

  datatype Process = Process(world: World, phase: Phase)

  datatype Control = Resume | Pause | Stop | SwitchStrategy

  function ControlKind(control: Control): Kind {
    match control
    case Resume => RunResumed
    case Pause => RunPaused
    case Stop => RunStopped
    case SwitchStrategy => StrategyChanged
  }

  /** One stage of a session. With a `cut` the process dies after that many acts of it. */
  datatype Op =
    | Initialize(now: Instant, contents: StartContents, cut: Option<nat>)
    | Recover(first: FirstState, env: ReconcileEnv, day: int, cut: Option<nat>)
    | CatchUp(now: Instant, missing: nat -> Missing, resume: bool, content: Content, cut: Option<nat>)
    | CycleTick(wake: Wake, cut: Option<nat>)
    | Lifecycle(control: Control, content: Content, cut: Option<nat>)
    | Die

  function Carry(origin: Origin, world: World, plan: Plan, cut: Option<nat>): (World, Finish) {
    match cut
    case None => Perform(origin, world, plan)
    case Some(count) => (PerformFirst(origin, world, plan, count), Stopped(Crashed))
  }

  predicate Succeeded(finish: Finish) {
    finish.Ended? && finish.ending.Completed?
  }

  /** A failed model decision is survived like a completed cycle. */
  predicate Survived(finish: Finish) {
    finish.Ended? && (finish.ending.Completed? || finish.ending.ModelFailed?)
  }

  function InitializeStep(arena: Arena, origin: Origin, world: World, now: Instant,
                          contents: StartContents, cut: Option<nat>): Process
    requires arena.Expected().Ok?
  {
    if now >= arena.span.endsAt then Process(world, Down)
    else
      var (next, finish) :=
        Carry(origin, world, InitializePlan(arena, Own(origin, world) != [], contents), cut);
      var completed := Cycles(Own(origin, next));
      Process(next, if finish.Ended? && completed <= arena.Expected().value then ChainReady(completed)
                    else Down)
  }

  function RecoverStep(arena: Arena, origin: Origin, world: World, completed: nat, first: FirstState,
                       env: ReconcileEnv, day: int, cut: Option<nat>): Process
  {
    var (next, finish) := Carry(origin, world, RecoverPlan(arena, world.risk, first, env, day), cut);
    Process(next, if Succeeded(finish) then StateReady(completed, finish.risk) else Down)
  }

  function CatchUpStep(arena: Arena, origin: Origin, world: World, completed: nat,
                       risk: LiveRiskState, now: Instant, missing: nat -> Missing, resume: bool,
                       content: Content, cut: Option<nat>): Process
    requires arena.Expected().Ok?
  {
    match DueCycleCount(arena.span, arena.cooldown, now)
    case Err(_) => Process(world, Down)
    case Ok(due) =>
      var total := Max(completed, due);
      var finished := total >= arena.Expected().value;
      var plan := CatchUpPlan(arena, completed, due, missing, risk,
                              ResumePlan(finished, resume, content, risk));
      var (next, finish) := Carry(origin, world, plan, cut);
      Process(next, if !Succeeded(finish) then Down
                    else if finished then Over
                    else Running(total, finish.risk))
  }

  function TickStep(arena: Arena, origin: Origin, world: World, completed: nat, risk: LiveRiskState,
                    wake: Wake, cut: Option<nat>): Process
    requires arena.Expected().Ok?
  {
    var (next, finish) := Carry(origin, world, TickPlan(arena, completed, wake, risk), cut);
    Process(next, if !Survived(finish) then Down
                  else if Closing(arena, completed, wake.now) then Over
                  else Running(completed + 1, finish.risk))
  }

  function LifecycleStep(origin: Origin, world: World, completed: nat, risk: LiveRiskState,
                         control: Control, content: Content, cut: Option<nat>): Process
  {
    var (next, finish) := Carry(origin, world, LifecyclePlan(ControlKind(control), content, risk), cut);
    Process(next, if !Survived(finish) then Down
                  else if control.Stop? then Over
                  else Running(completed, finish.risk))
  }

  /** An operation has an effect only at the stage that reaches it. */
  function Step(arena: Arena, origin: Origin, process: Process, op: Op): Process {
    var Process(world, phase) := process;
    if arena.Expected().Err? then process
    else
      match op
      case Die => if phase.Over? then process else Process(world, Down)
      case Initialize(now, contents, cut) =>
        if phase.Down? then InitializeStep(arena, origin, world, now, contents, cut) else process
      case Recover(first, env, day, cut) =>
        if phase.ChainReady? then
          RecoverStep(arena, origin, world, phase.completed, first, env, day, cut)
        else process
      case CatchUp(now, missing, resume, content, cut) =>
        if phase.StateReady? then
          CatchUpStep(arena, origin, world, phase.completed, phase.risk, now, missing, resume,
                      content, cut)
        else process
      case CycleTick(wake, cut) =>
        if phase.Running? then
          TickStep(arena, origin, world, phase.completed, phase.risk, wake, cut)
        else process
      case Lifecycle(control, content, cut) =>
        if phase.Running? then
          LifecycleStep(origin, world, phase.completed, phase.risk, control, content, cut)
        else process
  }

  function AfterOps(arena: Arena, origin: Origin, start: Process, ops: seq<Op>): Process {
    if ops == [] then start
    else
      Step(arena, origin, AfterOps(arena, origin, start, ops[..|ops| - 1]), ops[|ops| - 1])
  }

  // ---------------------------------------------------------------- the session object

  datatype Stage = Absent | Initialized | Recovered | Trading | Finished

  class RunSession {
    const agent: LiveAgent
    const arena: Arena
    var completed: nat
    var stage: Stage

    constructor (agent: LiveAgent, arena: Arena)
      requires agent.Valid() && agent.config == arena.live
      ensures this.agent == agent && this.arena == arena && Valid()
      ensures State() == Process(agent.Durable(), Down)
    {
      this.agent := agent;
      this.arena := arena;
      completed := 0;
      stage := Absent;
    }

    ghost predicate Valid() {
      agent.Valid() && agent.config == arena.live
    }

    /** What survives the process, and what this session holds in memory. */
    ghost function State(): Process
      reads this, agent, agent.writer.journal, agent.writer.sink, agent.venue
    {
      Process(agent.Durable(),
              match stage
              case Absent => Down
              case Initialized => ChainReady(completed)
              case Recovered => StateReady(completed, agent.risk)
              case Trading => Running(completed, agent.risk)
              case Finished => Over)
    }

    function Origin(): Origin {
      agent.writer.origin
    }

    /** Start or flush the event chain. */
    method StartChain(contents: StartContents) returns (finish: Finish)
      requires Valid()
      modifies agent.writer.journal`rows, agent.writer.sink
      ensures (agent.Durable(), finish)
              == Perform(Origin(), old(agent.Durable()),
                         InitializePlan(arena, Own(Origin(), old(agent.Durable())) != [], contents))
    {
      hide Perform;
      var latest := agent.writer.journal.LatestEventState(agent.writer.origin.runId);
      ghost var plan := InitializePlan(arena, latest.Some?, contents);
      if latest.Some? {
        var flushed := agent.FlushPending(plan);
        if flushed != Done {
          return Finish.Stopped(flushed);
        }
        Ends(plan.rest);
        return Ended(Prepared, UNLOADED);
      }
      var outcome := agent.NoteEvent(None, RunStarted, contents.started, plan);
      if outcome != Done {
        return Finish.Stopped(outcome);
      }
      plan := plan.rest;
      if arena.handoff {
        outcome := agent.NoteEvent(None, HandoffSnapshot, contents.handoff, plan);
        if outcome != Done {
          return Finish.Stopped(outcome);
        }
        plan := plan.rest;
      }
      outcome := agent.NoteEvent(None, RunPaused, contents.paused, plan);
      if outcome != Done {
        return Finish.Stopped(outcome);
      }
      Ends(plan.rest);
      return Ended(Prepared, UNLOADED);
    }

    method CountCycles() returns (count: nat)
      ensures count == Cycles(Own(Origin(), agent.Durable()))
    {
      var runId := agent.writer.origin.runId;
      var started := agent.writer.journal.EventCount(runId, CycleStarted);
      var missed := agent.writer.journal.EventCount(runId, MissedCycle);
      count := started + missed;
    }

    /** Start or flush the event chain, then count the cycles it accounts for. */
    method InitializeEventChain(now: Instant, contents: StartContents)
      requires Valid() && stage.Absent? && arena.Expected().Ok?
      modifies this, agent.writer.journal`rows, agent.writer.sink
      ensures State() == InitializeStep(arena, Origin(), old(agent.Durable()), now, contents, None)
    {
      hide Perform, InitializePlan, ExpectedCycleCount, Own, Cycles;
      if now >= arena.span.endsAt {
        return;
      }
      var finish := StartChain(contents);
      if finish.Stopped? {
        return;
      }
      var counted := CountCycles();
      if counted <= arena.Expected().value {
        completed := counted;
        stage := Initialized;
      }
    }

    lemma Ends(plan: Plan)
      requires plan.End?
      ensures Perform(agent.writer.origin, agent.Durable(), plan)
              == (agent.Durable(), Ended(plan.ending, plan.risk))
    {
    }

    /** The stored risk state does not decode. */
    predicate Unreadable()
      reads agent.writer.journal
    {
      var key := RiskStateOf(agent.writer.origin.runId);
      key in agent.writer.journal.secrets && !agent.writer.journal.secrets[key].RiskState?
    }

    /** Load or create the risk state and reconcile from it; a stored state that does not decode ends
        the session with nothing changed. */
    method RecoverState(first: FirstState, env: ReconcileEnv, day: int)
      requires Valid() && stage.Initialized? && arena.Expected().Ok?
      modifies this, agent, agent.writer.journal, agent.writer.sink
      ensures State() == if old(Unreadable()) then Process(old(agent.Durable()), Down)
                         else RecoverStep(arena, Origin(), old(agent.Durable()), completed, first, env,
                                          day, None)
    {
      hide Perform, ReconcilePlan, ExpectedCycleCount, ValidInitialAccount;
      stage := Absent;
      var held := agent.writer.journal.ReadSecret(RiskStateOf(agent.writer.origin.runId));
      ghost var plan := RecoverPlan(arena, agent.Durable().risk, first, env, day);
      if held.Some? {
        if !held.value.RiskState? {
          return;
        }
        agent.risk := held.value.state;
      } else {
        if first.account.None? || !ValidInitialAccount(arena, first.account.value) || first.at.None? {
          Ends(plan);
          return;
        }
        agent.risk := FirstRisk(first);
        agent.Store(plan);
      }
      var finish := agent.ReconcileLiveState(None, env, day, false);
      if finish.Ended? && finish.ending.Completed? {
        stage := Recovered;
      }
    }

    /** Append the missed event of the next boundary. */
    method AppendMissedCycle(missing: Missing, ghost plan: Plan, ghost rest: Plan)
      returns (appended: bool)
      requires Valid() && plan == MissedPlan(arena, completed, missing, agent.risk, rest)
      modifies agent.writer.journal`rows, agent.writer.sink
      ensures appended ==>
                Perform(Origin(), old(agent.Durable()), plan) == Perform(Origin(), agent.Durable(), rest)
      ensures !appended ==>
                var (world, finish) := Perform(Origin(), old(agent.Durable()), plan);
                world == agent.Durable() && !Survived(finish)
    {
      hide Perform;
      var at := ScheduledCycleAt(arena.span, arena.cooldown, completed);
      if at.Err? {
        Ends(plan);
        return false;
      }
      var draft := Draft(Some(missing.cycleId), MissedCycle, missing.occurredAt, Boundary(at.value));
      var outcome := agent.Emit(draft, plan);
      return outcome == Done;
    }

    /** Append one lifecycle event. */
    method Record(kind: Kind, content: Content) returns (finish: Finish)
      requires Valid()
      modifies agent.writer.journal`rows, agent.writer.sink
      ensures (agent.Durable(), finish)
              == Perform(Origin(), old(agent.Durable()), LifecyclePlan(kind, content, agent.risk))
      ensures finish.Ended? ==> finish == Ended(Completed(false), agent.risk)
    {
      hide Perform;
      ghost var plan := LifecyclePlan(kind, content, agent.risk);
      var outcome := agent.NoteEvent(None, kind, content, plan);
      if outcome != Done {
        return Finish.Stopped(outcome);
      }
      Ends(plan.rest);
      return Ended(Completed(false), agent.risk);
    }

    /** Append a missed event for every boundary before `due`. */
    method AccountForBoundaries(due: nat, missing: nat -> Missing, ghost rest: Plan)
      returns (accounted: bool)
      requires Valid()
      modifies this`completed, agent.writer.journal`rows, agent.writer.sink
      ensures var plan := CatchUpPlan(arena, old(completed), due, missing, agent.risk, rest);
              if accounted then
                Perform(Origin(), old(agent.Durable()), plan) == Perform(Origin(), agent.Durable(), rest)
              else
                var (world, finish) := Perform(Origin(), old(agent.Durable()), plan);
                world == agent.Durable() && !Survived(finish)
      ensures accounted ==> completed == Max(old(completed), due)
    {
      hide Perform, MissedPlan;
      ghost var plan := CatchUpPlan(arena, completed, due, missing, agent.risk, rest);
      while completed < due
        invariant old(completed) <= completed <= Max(old(completed), due)
        invariant plan == CatchUpPlan(arena, completed, due, missing, agent.risk, rest)
        invariant Perform(Origin(), agent.Durable(), plan)
                  == old(Perform(Origin(), agent.Durable(),
                                 CatchUpPlan(arena, completed, due, missing, agent.risk, rest)))
      {
        ghost var next := CatchUpPlan(arena, completed + 1, due, missing, agent.risk, rest);
        var appended := AppendMissedCycle(missing(completed), plan, next);
        if !appended {
          return false;
        }
        plan := next;
        completed := completed + 1;
      }
      return true;
    }

    /** Account for every boundary that passed while nothing ran, then stop or go on. */
    method CatchUpWithSchedule(now: Instant, missing: nat -> Missing, resume: bool, content: Content)
      requires Valid() && stage.Recovered? && arena.Expected().Ok?
      modifies this, agent.writer.journal`rows, agent.writer.sink
      ensures State() == CatchUpStep(arena, Origin(), old(agent.Durable()), old(completed),
                                     old(agent.risk), now, missing, resume, content, None)
    {
      hide Perform, ExpectedCycleCount, DueCycleCount, CatchUpPlan, LifecyclePlan;
      var due := DueCycleCount(arena.span, arena.cooldown, now);
      stage := Absent;
      if due.Err? {
        return;
      }
      ghost var finished := Max(completed, due.value) >= arena.Expected().value;
      ghost var tail := ResumePlan(finished, resume, content, agent.risk);
      var accounted := AccountForBoundaries(due.value, missing, tail);
      if !accounted {
        return;
      }
      if completed >= arena.Expected().value {
        var stopped := Record(RunStopped, content);
        stage := if stopped.Ended? then Finished else Absent;
        return;
      }
      if resume {
        var resumed := Record(RunResumed, content);
        stage := if resumed.Ended? then Trading else Absent;
        return;
      }
      Ends(tail);
      stage := Trading;
    }

    /** One wake-up: stop at the end of the schedule, record a missed boundary while paused, or run
        a cycle. */
    method Tick(wake: Wake)
      requires Valid() && stage.Trading? && arena.Expected().Ok?
      modifies this, agent, agent.writer.journal, agent.writer.sink, agent.venue
      ensures State() == TickStep(arena, Origin(), old(agent.Durable()), old(completed),
                                  old(agent.risk), wake, None)
    {
      hide Perform, CyclePlan, ExpectedCycleCount, MissedPlan, LifecyclePlan;
      stage := Absent;
      ghost var plan := TickPlan(arena, completed, wake, agent.risk);
      if completed >= arena.Expected().value || wake.now >= arena.span.endsAt {
        var stopped := Record(RunStopped, wake.content);
        stage := if stopped.Ended? then Finished else Absent;
        return;
      }
      if !wake.running {
        ghost var rest := End(Completed(false), agent.risk);
        var appended := AppendMissedCycle(wake.missing, plan, rest);
        if appended {
          Ends(rest);
          completed := completed + 1;
          stage := Trading;
        }
        return;
      }
      var finish := agent.ExecuteLiveCycle(wake.env);
      if finish.Ended? && (finish.ending.Completed? || finish.ending.ModelFailed?) {
        completed := completed + 1;
        stage := Trading;
      }
    }

    /** Record an authenticated control. */
    method AppendLifecycle(control: Control, content: Content)
      requires Valid() && stage.Trading? && arena.Expected().Ok?
      modifies this, agent.writer.journal`rows, agent.writer.sink
      ensures State() == LifecycleStep(Origin(), old(agent.Durable()), completed, old(agent.risk),
                                       control, content, None)
    {
      hide Perform, ExpectedCycleCount, LifecyclePlan;
      var finish := Record(ControlKind(control), content);
      if finish.Stopped? {
        stage := Absent;
      } else if control.Stop? {
        stage := Finished;
      }
    }
  }
}
