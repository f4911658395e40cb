/** The stages of a session, exactly: when a session lives through one, what it then records, and with
    which counter it goes on. */
module Stages {
  import opened Arithmetic
  import opened Policy
  import opened Book
  import opened Market
  import opened Events
  import opened Journal
  import opened Writer
  import opened WriterTheorems
  import opened Schedule
  import opened Live
  import opened LiveTheorems
  import opened Session
  import opened SessionTheorems
  import opened Trace
  import Progress

  // ---------------------------------------------------------------- when a cycle ends alive

  lemma ReconcileEnds(leverage: u8, cycleId: Option<nat>, env: ReconcileEnv, day: int,
                      risk: LiveRiskState, submitted: bool)
    ensures var ending := EndingOf(ReconcilePlan(leverage, cycleId, env, day, risk, submitted));
            if Answered(env, leverage) then ending == Completed(submitted) else !Survives(ending)
  {
    hide ValidAccount, Healthy, UpdateRiskState;
    if env.account.Some? {
      HealthyIsValid(env.account.value, leverage);
    }
    var plan := ReconcilePlan(leverage, cycleId, env, day, risk, submitted);
    if plan.Then? {
      var store := plan.rest.rest.rest.rest;
      QuietAct(store.act, store.rest);
      QuietAct(plan.rest.rest.rest.act, store);
      QuietAct(plan.rest.rest.act, plan.rest.rest.rest);
      QuietAct(plan.rest.act, plan.rest.rest);
      QuietAct(plan.act, plan.rest);
    }
  }

  lemma DispatchEndsIff(config: LiveConfig, env: CycleEnv, order: OrderDecision, basis: Basis)
    ensures Survives(EndingOf(DispatchPlan(config, env, order, basis)))
            <==> env.dispatch.accepted && Answered(env.reconcile, config.isolatedLeverage)
  {
    hide ReconcilePlan, Answered;
    var plan := DispatchPlan(config, env, order, basis);
    var tail := plan.rest.rest.rest.rest;
    ReconcileEnds(config.isolatedLeverage, Some(env.cycleId), env.reconcile, env.day,
                  Counted(basis.risk), true);
    assert EndingOf(plan.rest.rest.rest) == EndingOf(tail);
    assert EndingOf(plan.rest.rest) == EndingOf(tail);
    assert EndingOf(plan.rest) == EndingOf(tail);
    if env.dispatch.accepted {
      assert EndingOf(tail) == EndingOf(tail.rest);
    }
  }

  /** The refreshed book can be swept to a limit, and an approved order that the gate lets through is
      accepted by the venue and reconciled. */
  predicate Concludes(config: LiveConfig, env: CycleEnv, basis: Basis) {
    && Healthy(basis.account, config.isolatedLeverage) && Askable(config, basis)
    && (Verdict(config, basis).Ok? && env.dispatch.permitted ==>
          env.dispatch.accepted && Answered(env.reconcile, config.isolatedLeverage))
  }

  lemma OrderEndsIff(config: LiveConfig, env: CycleEnv, basis: Basis)
    requires basis.view.Usable() && Healthy(basis.account, config.isolatedLeverage)
    ensures Survives(EndingOf(OrderPlan(config, env, basis))) <==> Concludes(config, env, basis)
  {
    hide DispatchPlan, Declined, Verdict, MarketableLimit, BookSnapshot.HasTop, MarketView.Usable, Healthy,
         Answered;
    DeclinedCountsNothing(env, basis.risk);
    if Askable(config, basis) && Verdict(config, basis).Ok? {
      DispatchEndsIff(config, env, Verdict(config, basis).value, basis);
    }
  }

  lemma ProposalEndsIff(config: LiveConfig, env: CycleEnv, proposal: Proposal, dated: LiveRiskState)
    requires env.decision.Decided? && env.decision.proposal == Some(proposal)
    ensures Survives(EndingOf(ProposalPlan(config, env, proposal, dated)))
            <==> exists basis :: JudgedNext(env, dated, basis) && Concludes(config, env, basis)
  {
    hide OrderPlan, UpdateRiskState, ValidAccount, Healthy, Verdict, Observes, MarketableLimit, Answered,
         MarketView.Usable, ObservedView, BookSnapshot.HasTop;
    var plan, dispatch := ProposalPlan(config, env, proposal, dated), env.dispatch;
    if dispatch.account.Some? {
      HealthyIsValid(dispatch.account.value, config.isolatedLeverage);
    }
    forall view | Observes(dispatch, view)
      ensures dispatch.nowMs.Some? && dispatch.view.Some? && view == ObservedView(dispatch)
    {
      ObservesOne(dispatch, view);
      ObservesSomething(dispatch, view);
    }
    if plan.Then? {
      var account := dispatch.account.value;
      var basis := Basis(account, ObservedView(dispatch), proposal,
                         UpdateRiskState(dated, account, env.day));
      ObservedIsObserved(dispatch);
      assert JudgedNext(env, dated, basis);
      QuietAct(plan.act, plan.rest);
      OrderEndsIff(config, env, basis);
    }
  }

  /** What it takes for a cycle to end with the run alive: everything it asks for first answers, and then
      the model fails, or decides on nothing, or its proposal concludes on what it is judged on. */
  ghost predicate EndsAlive(config: LiveConfig, env: CycleEnv, risk: LiveRiskState) {
    && Supplied(config, env)
    && match env.decision
       case Failed => true
       case Decided(_, proposal) =>
         proposal.Some? ==>
           exists basis :: JudgedOn(env, risk, basis) && Concludes(config, env, basis)
  }

  lemma DecisionEndsIff(config: LiveConfig, env: CycleEnv, dated: LiveRiskState)
    ensures Survives(EndingOf(DecisionPlan(config, env, dated)))
            <==> (env.decision.Decided? && env.decision.proposal.Some? ==>
                    exists basis :: JudgedNext(env, dated, basis) && Concludes(config, env, basis))
  {
    hide ProposalPlan, Declined, ReceiptPlan, Concludes, JudgedNext;
    match env.decision {
      case Failed =>
        var store := DecisionPlan(config, env, dated).rest;
        QuietAct(store.act, store.rest);
        QuietAct(DecisionPlan(config, env, dated).act, store);
      case Decided(receipts, proposal) =>
        var decided := DecidedPlan(config, env, proposal, dated);
        ReceiptsCountNothing(env, receipts, decided);
        QuietAct(decided.act, decided.rest);
        if proposal.None? {
          DeclinedCountsNothing(env, dated);
        } else {
          ProposalEndsIff(config, env, proposal.value, dated);
        }
    }
  }

  lemma JudgedOnIff(env: CycleEnv, risk: LiveRiskState, basis: Basis)
    requires env.account.Some?
    ensures JudgedOn(env, risk, basis)
            <==> JudgedNext(env, UpdateRiskState(risk, env.account.value, env.day), basis)
  {
    hide UpdateRiskState, Observes;
  }

  /** A cycle ends with the run alive exactly when that holds. */
  lemma CycleEndsIff(config: LiveConfig, env: CycleEnv, risk: LiveRiskState)
    ensures Survives(EndingOf(CyclePlan(config, env, risk))) <==> EndsAlive(config, env, risk)
  {
    hide DecisionPlan, UpdateRiskState, ValidAccount, Healthy, Concludes, JudgedOn, JudgedNext;
    var plan := CyclePlan(config, env, risk);
    if env.account.Some? {
      HealthyIsValid(env.account.value, config.isolatedLeverage);
    }
    if plan.Then? {
      var dated := UpdateRiskState(risk, env.account.value, env.day);
      var third := plan.rest.rest.rest;
      QuietAct(third.act, third.rest);
      QuietAct(plan.rest.rest.act, third);
      QuietAct(plan.rest.act, plan.rest.rest);
      QuietAct(plan.act, plan.rest);
      DecisionEndsIff(config, env, dated);
      forall basis ensures JudgedOn(env, risk, basis) <==> JudgedNext(env, dated, basis) {
        JudgedOnIff(env, risk, basis);
      }
    }
  }

  // ---------------------------------------------------------------- what a living session records

  /** The missed events from the counter up to the due count. */
  function AllMissed(arena: Arena, completed: nat, due: nat, missing: nat -> Missing): seq<Draft>
    requires forall index :: completed <= index < due ==>
               ScheduledCycleAt(arena.span, arena.cooldown, index).Ok?
  {
    seq(Max(due - completed, 0), i requires 0 <= i < due - completed =>
      MissedDraftOf(arena, completed + i, missing(completed + i)))
  }

  function MissedDraftOf(arena: Arena, index: nat, missing: Missing): Draft
    requires ScheduledCycleAt(arena.span, arena.cooldown, index).Ok?
  {
    Draft(Some(missing.cycleId), MissedCycle, missing.occurredAt,
          Boundary(ScheduledCycleAt(arena.span, arena.cooldown, index).value))
  }

  lemma MissedIsAll(drafts: seq<Draft>, arena: Arena, completed: nat, due: nat, missing: nat -> Missing)
    requires |drafts| == Max(due - completed, 0) && Missed(drafts, arena, completed, missing)
    requires forall index :: completed <= index < due ==>
               ScheduledCycleAt(arena.span, arena.cooldown, index).Ok?
    ensures drafts == AllMissed(arena, completed, due, missing)
  {
    hide ScheduledCycleAt;
    var all := AllMissed(arena, completed, due, missing);
    forall i | 0 <= i < |drafts| ensures drafts[i] == all[i] {
      assert OfMissed(drafts[i], arena, completed + i, missing(completed + i));
      OfMissedIs(drafts[i], arena, completed + i, missing(completed + i));
    }
  }

  lemma OfMissedIs(draft: Draft, arena: Arena, index: nat, missing: Missing)
    requires OfMissed(draft, arena, index, missing)
    ensures draft == MissedDraftOf(arena, index, missing)
  {
    hide ScheduledCycleAt;
  }

  /** What a session that lives through the stage records, in order. `anew` says that the run has no
      event yet, and `sent` is the order the stage sent, if any. */
  function StageRecord(arena: Arena, before: Process, op: Op, anew: bool, sent: Option<OrderDecision>)
    : seq<Draft>
    requires arena.Expected().Ok?
    requires sent.Some? ==> op.CycleTick? && op.wake.env.reconcile.at.Some?
    requires op.Recover? ==> op.env.at.Some?
  {
    var phase := before.phase;
    match op
    case Die => []
    case Initialize(_, contents, _) =>
      if !anew then []
      else
        [Told(None, RunStarted, contents.started)]
        + (if arena.handoff then [Told(None, HandoffSnapshot, contents.handoff)] else [])
        + [Told(None, RunPaused, contents.paused)]
    case Recover(first, env, _, _) => Reconciliation(None, env, Since(before.world.risk, first))
    case CatchUp(now, missing, resume, content, _) =>
      if !phase.StateReady? then []
      else
        DueWithinSchedule(arena, now);
        AllScheduled(arena);
        var due := DueCycleCount(arena.span, arena.cooldown, now).value;
        AllMissed(arena, phase.completed, due, missing)
        + (if phase.completed >= arena.Expected().value || due >= arena.Expected().value then
             [Told(None, RunStopped, content)]
           else if resume then [Told(None, RunResumed, content)] else [])
    case CycleTick(wake, _) =>
      if !phase.Running? then []
      else if UsedUp(arena, phase.completed, wake.now) then [Told(None, RunStopped, wake.content)]
      else if wake.running then CycleRecord(wake.env, sent, phase.risk.lastReconciliationMs)
      else
        AllScheduled(arena);
        [MissedDraftOf(arena, phase.completed, wake.missing)]
    case Lifecycle(control, content, _) =>
      [Told(None, match control
                  case Resume => RunResumed
                  case Pause => RunPaused
                  case Stop => RunStopped
                  case SwitchStrategy => StrategyChanged, content)]
  }

  lemma AllScheduled(arena: Arena)
    requires arena.Expected().Ok?
    ensures forall index: nat :: index < arena.Expected().value ==>
              ScheduledCycleAt(arena.span, arena.cooldown, index).Ok?
  {
    hide ExpectedCycleCount, ScheduledCycleAt;
    forall index: nat | index < arena.Expected().value
      ensures ScheduledCycleAt(arena.span, arena.cooldown, index).Ok?
    {
      EveryCycleFits(arena.span, arena.cooldown, index);
    }
  }

  /** The order a stage sent, if any. */
  function SentIn(before: World, after: World): Option<OrderDecision> {
    if |before.submissions| < |after.submissions| then
      Some(after.submissions[|before.submissions|].order)
    else None
  }

  /** The session's stage when it lives through one, with the counter it goes on with. */
  predicate GoesOn(arena: Arena, before: Process, op: Op, after: Process, cycles: nat)
    requires arena.Expected().Ok?
  {
    var was, phase := before.phase, after.phase;
    match op
    case Die => true
    case Initialize(_, _, _) => phase == ChainReady(cycles)
    case Recover(_, _, _, _) =>
      was.ChainReady? && phase.StateReady? && phase.completed == was.completed
    case CatchUp(now, _, _, _, _) =>
      && was.StateReady? && DueCycleCount(arena.span, arena.cooldown, now).Ok?
      && var due := DueCycleCount(arena.span, arena.cooldown, now).value;
         if was.completed >= arena.Expected().value || due >= arena.Expected().value then phase.Over?
         else
           && phase.Running? && phase.risk == was.risk
           && phase.completed == (if due > was.completed then due else was.completed)
    case CycleTick(wake, _) =>
      && was.Running?
      && (if UsedUp(arena, was.completed, wake.now) then phase.Over?
          else phase.Running? && phase.completed == was.completed + 1)
    case Lifecycle(control, _, _) =>
      was.Running? && if control.Stop? then phase.Over? else phase == was
  }

  lemma InitializeLives(arena: Arena, origin: Origin, process: Process, op: Op)
    requires arena.Expected().Ok? && op.Initialize? && process.phase.Down?
    requires Settled(origin.crypto, process.world.wire)
    requires !Step(arena, origin, process, op).phase.Down?
    ensures var after := Step(arena, origin, process, op);
            && TellsAll(origin, Own(origin, process.world), Own(origin, after.world),
                        StageRecord(arena, process, op, Own(origin, process.world) == [], None))
            && GoesOn(arena, process, op, after, Cycles(Own(origin, after.world)))
  {
    hide Carry, InitializePlan, ExpectedCycleCount, Own, Cycles, Settled, TellsAll, Hears;
    StepTells(arena, origin, process, op);
    InitializeDrafts(arena, Own(origin, process.world) == [], op.contents);
    InitializeDrafts(arena, Own(origin, process.world) != [], op.contents);
  }

  lemma RecoverLives(arena: Arena, origin: Origin, process: Process, op: Op)
    requires arena.Expected().Ok? && op.Recover? && process.phase.ChainReady?
    requires Settled(origin.crypto, process.world.wire)
    requires !Step(arena, origin, process, op).phase.Down?
    ensures op.env.at.Some?
    ensures var after := Step(arena, origin, process, op);
            && TellsAll(origin, Own(origin, process.world), Own(origin, after.world),
                        StageRecord(arena, process, op, Own(origin, process.world) == [], None))
            && GoesOn(arena, process, op, after, Cycles(Own(origin, after.world)))
  {
    hide Carry, RecoverPlan, ExpectedCycleCount, Own, Cycles, Settled, TellsAll, Hears, Reconciliation;
    StepTells(arena, origin, process, op);
    var Recover(first, env, day, cut) := op;
    RecoverEnds(arena, process.world.risk, first, env, day);
    var plan := RecoverPlan(arena, process.world.risk, first, env, day);
    CarryEnds(origin, process.world, plan, cut);
  }

  /** A plan that is carried to its end ends as it names. */
  lemma CarryEnds(origin: Origin, world: World, plan: Plan, cut: Option<nat>)
    ensures var finish := Carry(origin, world, plan, cut).1;
            finish.Ended? ==> finish.ending == EndingOf(plan)
  {
    hide Perform, PerformFirst;
    if cut.None? {
      PerformSends(origin, world, plan);
    }
  }

  /** There is a stored state, or the first account may start the run and the clock answers. */
  predicate MayStart(arena: Arena, held: Option<LiveRiskState>, first: FirstState) {
    held.Some?
    || (&& first.at.Some? && first.account.Some?
        && var account := first.account.value;
           if arena.exactCapital then
             && account.equity == arena.live.startingCapital == account.withdrawable
             && account.positions == map[]
           else account.equity > 0)
  }

  /** A recovery ends alive exactly when the run may start and the venue answers its reconciliation, whose
      events it records. */
  lemma RecoverEnds(arena: Arena, held: Option<LiveRiskState>, first: FirstState, env: ReconcileEnv,
                    day: int)
    ensures var plan := RecoverPlan(arena, held, first, env, day);
            var answered := MayStart(arena, held, first) && Answered(env, arena.live.isolatedLeverage);
            && (answered <==> Survives(EndingOf(plan)))
            && (answered ==>
                  EndingOf(plan) == Completed(false)
                  && Drafts(plan) == Reconciliation(None, env, Since(held, first)))
  {
    hide ReconcilePlan, Healthy, Reconciliation;
    var leverage, plan := arena.live.isolatedLeverage, RecoverPlan(arena, held, first, env, day);
    if held.Some? {
      ReconcileRecordsAll(leverage, env, day, held.value);
    } else if plan.Then? {
      var risk := FirstRisk(first);
      var rest := ReconcilePlan(leverage, None, env, day, risk, false);
      ReconcileRecordsAll(leverage, env, day, risk);
      SilentAct(StoreRisk(risk), rest);
      QuietAct(StoreRisk(risk), rest);
    }
  }

  lemma ReconcileRecordsAll(leverage: u8, env: ReconcileEnv, day: int, risk: LiveRiskState)
    ensures var plan := ReconcilePlan(leverage, None, env, day, risk, false);
            if Answered(env, leverage) then
              EndingOf(plan) == Completed(false)
              && Drafts(plan) == Reconciliation(None, env, risk.lastReconciliationMs)
            else !Survives(EndingOf(plan))
  {
    ReconcileEnds(leverage, None, env, day, risk, false);
    if Answered(env, leverage) {
      ReconcileBegins(leverage, env, day, risk);
      ReconcileDrafts(leverage, None, env, day, risk, false);
    }
  }

  lemma ReconcileBegins(leverage: u8, env: ReconcileEnv, day: int, risk: LiveRiskState)
    requires Answered(env, leverage)
    ensures ReconcilePlan(leverage, None, env, day, risk, false).Then?
  {
    hide Healthy, ValidAccount, UpdateRiskState;
    HealthyIsValid(env.account.value, leverage);
  }

  /** Catching up records a missed event for every boundary that has passed, and how it goes on. */
  lemma CatchUpRecordsAll(arena: Arena, completed: nat, due: nat,
                          missing: nat -> Missing, resume: bool, content: Content, risk: LiveRiskState)
    requires arena.Expected().Ok? && due <= arena.Expected().value
    ensures forall index :: completed <= index < due ==>
              ScheduledCycleAt(arena.span, arena.cooldown, index).Ok?
    ensures var finished := completed >= arena.Expected().value || due >= arena.Expected().value;
            var plan := CatchUpPlan(arena, completed, due, missing, risk,
                                    ResumePlan(finished, resume, content, risk));
            && EndingOf(plan) == Completed(false) && RiskOf(plan) == risk
            && Drafts(plan)
               == AllMissed(arena, completed, due, missing)
                  + (if finished then [Told(None, RunStopped, content)]
                     else if resume then [Told(None, RunResumed, content)] else [])
  {
    hide ExpectedCycleCount, ScheduledCycleAt, CatchUpPlan, LifecyclePlan, Missed;
    AllScheduled(arena);
    var finished := completed >= arena.Expected().value || due >= arena.Expected().value;
    var rest := ResumePlan(finished, resume, content, risk);
    LifecycleDrafts(RunStopped, content, risk);
    LifecycleDrafts(RunResumed, content, risk);
    NoDrafts(End(Completed(false), risk));
    var missed := CatchUpDrafts(arena, completed, due, missing, risk, rest);
    MissedIsAll(missed, arena, completed, due, missing);
    LifecycleEnds(RunStopped, content, risk);
    LifecycleEnds(RunResumed, content, risk);
    CatchUpEnds(arena, completed, due, missing, risk, rest);
  }

  lemma NoDrafts(plan: Plan)
    requires plan.End?
    ensures Drafts(plan) == [] && EndingOf(plan) == plan.ending && RiskOf(plan) == plan.risk
  {
  }

  lemma LifecycleEnds(kind: Kind, content: Content, risk: LiveRiskState)
    ensures EndingOf(LifecyclePlan(kind, content, risk)) == Completed(false)
    ensures RiskOf(LifecyclePlan(kind, content, risk)) == risk
  {
    NoDrafts(End(Completed(false), risk));
  }

  lemma {:induction false} CatchUpEnds(arena: Arena, completed: nat, due: nat,
                                       missing: nat -> Missing, risk: LiveRiskState, rest: Plan)
    requires arena.Expected().Ok? && due <= arena.Expected().value
    ensures var plan := CatchUpPlan(arena, completed, due, missing, risk, rest);
            EndingOf(plan) == EndingOf(rest) && RiskOf(plan) == RiskOf(rest)
    decreases due - completed
  {
    hide ExpectedCycleCount, ScheduledCycleAt;
    if completed < due {
      CatchUpEnds(arena, completed + 1, due, missing, risk, rest);
      EveryCycleFits(arena.span, arena.cooldown, completed);
    }
  }

  lemma CatchUpLives(arena: Arena, origin: Origin, process: Process, op: Op)
    requires arena.Expected().Ok? && op.CatchUp? && process.phase.StateReady?
    requires Settled(origin.crypto, process.world.wire)
    requires !Step(arena, origin, process, op).phase.Down?
    ensures var after := Step(arena, origin, process, op);
            && TellsAll(origin, Own(origin, process.world), Own(origin, after.world),
                        StageRecord(arena, process, op, Own(origin, process.world) == [], None))
            && GoesOn(arena, process, op, after, Cycles(Own(origin, after.world)))
  {
    hide Carry, CatchUpPlan, ResumePlan, DueCycleCount, ExpectedCycleCount, Own, Cycles, Settled, TellsAll,
         Hears, AllMissed;
    StepTells(arena, origin, process, op);
    DueWithinSchedule(arena, op.now);
    var due := DueCycleCount(arena.span, arena.cooldown, op.now).value;
    var completed, risk := process.phase.completed, process.phase.risk;
    CatchUpRecordsAll(arena, completed, due, op.missing, op.resume, op.content, risk);
    var finished := Max(completed, due) >= arena.Expected().value;
    var plan := CatchUpPlan(arena, completed, due, op.missing, risk,
                            ResumePlan(finished, op.resume, op.content, risk));
    CarryRisk(origin, process.world, plan, op.cut);
  }

  lemma {:induction false} PerformRisk(origin: Origin, world: World, plan: Plan)
    ensures var finish := Perform(origin, world, plan).1;
            finish.Ended? ==> finish.ending == EndingOf(plan) && finish.risk == RiskOf(plan)
    decreases plan
  {
    hide DoAct;
    if plan.Then? {
      var (next, outcome) := DoAct(origin, world, plan.act);
      if outcome == Done {
        PerformRisk(origin, next, plan.rest);
      }
    }
  }

  lemma CarryRisk(origin: Origin, world: World, plan: Plan, cut: Option<nat>)
    ensures var finish := Carry(origin, world, plan, cut).1;
            finish.Ended? ==> finish.ending == EndingOf(plan) && finish.risk == RiskOf(plan)
  {
    hide Perform, PerformFirst;
    if cut.None? {
      PerformRisk(origin, world, plan);
    }
  }

  lemma LifecycleLives(arena: Arena, origin: Origin, process: Process, op: Op)
    requires arena.Expected().Ok? && op.Lifecycle? && process.phase.Running?
    requires Settled(origin.crypto, process.world.wire)
    requires !Step(arena, origin, process, op).phase.Down?
    ensures var after := Step(arena, origin, process, op);
            && TellsAll(origin, Own(origin, process.world), Own(origin, after.world),
                        StageRecord(arena, process, op, Own(origin, process.world) == [], None))
            && GoesOn(arena, process, op, after, Cycles(Own(origin, after.world)))
  {
    hide Carry, LifecyclePlan, ExpectedCycleCount, Own, Cycles, Settled, TellsAll, Hears;
    StepTells(arena, origin, process, op);
    var kind, risk := ControlKind(op.control), process.phase.risk;
    LifecycleDrafts(kind, op.content, risk);
    LifecycleEnds(kind, op.content, risk);
    CarryRisk(origin, process.world, LifecyclePlan(kind, op.content, risk), op.cut);
  }

  /** What a wake-up that lives on records. */
  lemma TickRecordsAll(arena: Arena, process: Process, op: Op)
    requires arena.Expected().Ok? && op.CycleTick? && process.phase.Running?
    ensures var plan := TickPlan(arena, process.phase.completed, op.wake, process.phase.risk);
            Survives(EndingOf(plan)) ==>
              && (SentOrder(plan).Some? ==> op.wake.env.reconcile.at.Some?)
              && Drafts(plan) == StageRecord(arena, process, op, false, SentOrder(plan))
  {
    hide CyclePlan, LifecyclePlan, ExpectedCycleCount, ScheduledCycleAt, CycleRecord, Sendings;
    var completed, risk, wake := process.phase.completed, process.phase.risk, op.wake;
    AllScheduled(arena);
    LifecycleDrafts(RunStopped, wake.content, risk);
    LifecycleCountsNothing(RunStopped, wake.content, risk);
    CycleTells(arena.live, wake.env, risk);
    var done := End(Completed(false), risk);
    NoDrafts(done);
    MissedTells(arena, completed, wake.missing, risk, done);
  }

  lemma MissedTells(arena: Arena, index: nat, missing: Missing, risk: LiveRiskState, rest: Plan)
    requires arena.Expected().Ok? && rest.End?
    ensures index < arena.Expected().value ==>
              && ScheduledCycleAt(arena.span, arena.cooldown, index).Ok?
              && Drafts(MissedPlan(arena, index, missing, risk, rest))
                 == [MissedDraftOf(arena, index, missing)]
              && Sendings(MissedPlan(arena, index, missing, risk, rest)) == []
              && EndingOf(MissedPlan(arena, index, missing, risk, rest)) == rest.ending
  {
    hide ExpectedCycleCount, ScheduledCycleAt;
    AllScheduled(arena);
    NoDrafts(rest);
    if index < arena.Expected().value {
      var plan := MissedPlan(arena, index, missing, risk, rest);
      QuietAct(plan.act, rest);
    }
  }

  lemma SentInPlan(origin: Origin, world: World, plan: Plan, cut: Option<nat>)
    ensures var (after, finish) := Carry(origin, world, plan, cut);
            finish.Ended? ==> SentIn(world, after) == SentOrder(plan)
  {
    hide Perform, PerformFirst, Sendings;
    if cut.None? {
      PerformSends(origin, world, plan);
    }
  }

  lemma TickLives(arena: Arena, origin: Origin, process: Process, op: Op)
    requires arena.Expected().Ok? && op.CycleTick? && process.phase.Running?
    requires Settled(origin.crypto, process.world.wire)
    requires !Step(arena, origin, process, op).phase.Down?
    ensures var after := Step(arena, origin, process, op);
            var sent := SentIn(process.world, after.world);
            && (sent.Some? ==> op.wake.env.reconcile.at.Some?)
            && TellsAll(origin, Own(origin, process.world), Own(origin, after.world),
                        StageRecord(arena, process, op, Own(origin, process.world) == [], sent))
            && GoesOn(arena, process, op, after, Cycles(Own(origin, after.world)))
  {
    hide Carry, TickPlan, ExpectedCycleCount, Own, Cycles, Settled, TellsAll, Hears, StageRecord, Sendings;
    StepTells(arena, origin, process, op);
    var plan := TickPlan(arena, process.phase.completed, op.wake, process.phase.risk);
    TickRecordsAll(arena, process, op);
    CarryRisk(origin, process.world, plan, op.cut);
    SentInPlan(origin, process.world, plan, op.cut);
    SameRecord(arena, process, op, SentOrder(plan));
  }

  lemma SameRecord(arena: Arena, process: Process, op: Op, sent: Option<OrderDecision>)
    requires arena.Expected().Ok? && op.CycleTick?
    requires sent.Some? ==> op.wake.env.reconcile.at.Some?
    ensures StageRecord(arena, process, op, true, sent) == StageRecord(arena, process, op, false, sent)
  {
    hide ExpectedCycleCount, ScheduledCycleAt, CycleRecord;
  }

  /** The stage is one that the session has come to. */
  predicate Reaches(before: Process, op: Op) {
    match op
    case Die => false
    case Initialize(_, _, _) => before.phase.Down?
    case Recover(_, _, _, _) => before.phase.ChainReady?
    case CatchUp(_, _, _, _, _) => before.phase.StateReady?
    case CycleTick(_, _) => before.phase.Running?
    case Lifecycle(_, _, _) => before.phase.Running?
  }

  /** A session that lives through a stage has recorded exactly the stage's events, in order, and goes on
      with the counter the stage leaves. */
  lemma LivingStagesTell(arena: Arena, origin: Origin, process: Process, op: Op)
    requires arena.Expected().Ok? && Reaches(process, op)
    requires Settled(origin.crypto, process.world.wire)
    requires !Step(arena, origin, process, op).phase.Down?
    ensures op.Recover? ==> op.env.at.Some?
    ensures var after := Step(arena, origin, process, op);
            var sent := SentIn(process.world, after.world);
            && (sent.Some? ==> op.CycleTick? && op.wake.env.reconcile.at.Some?)
            && TellsAll(origin, Own(origin, process.world), Own(origin, after.world),
                        StageRecord(arena, process, op, Own(origin, process.world) == [], sent))
            && GoesOn(arena, process, op, after, Cycles(Own(origin, after.world)))
  {
    hide Step, ExpectedCycleCount, Own, Cycles, Settled, TellsAll, StageRecord, GoesOn;
    match op {
      case Initialize(_, _, _) => InitializeLives(arena, origin, process, op);
      case Recover(_, _, _, _) => RecoverLives(arena, origin, process, op);
      case CatchUp(_, _, _, _, _) => CatchUpLives(arena, origin, process, op);
      case CycleTick(_, _) => TickLives(arena, origin, process, op);
      case Lifecycle(_, _, _) => LifecycleLives(arena, origin, process, op);
    }
    OnlyTicksSend(arena, origin, process, op);
  }

  lemma OnlyTicksSend(arena: Arena, origin: Origin, process: Process, op: Op)
    ensures !op.CycleTick? ==> SentIn(process.world, Step(arena, origin, process, op).world).None?
  {
    StepSends(arena, origin, process, op);
    hide Step;
  }

  // ---------------------------------------------------------------- when a session lives through a stage

  /** What it takes for a session to live through the stage it has come to. */
  ghost predicate Lives(arena: Arena, origin: Origin, before: Process, op: Op)
    requires arena.Expected().Ok? && Reaches(before, op)
  {
    match op
    case Initialize(now, _, _) =>
      now < arena.span.endsAt && Cycles(Own(origin, before.world)) <= arena.Expected().value
    case Recover(first, env, _, _) =>
      MayStart(arena, before.world.risk, first) && Answered(env, arena.live.isolatedLeverage)
    case CatchUp(_, _, _, _, _) => true
    case CycleTick(wake, _) =>
      UsedUp(arena, before.phase.completed, wake.now) || !wake.running
      || EndsAlive(arena.live, wake.env, before.phase.risk)
    case Lifecycle(_, _, _) => true
  }

  /** The stage is not cut, and the run's events can be signed, chained, stored and delivered. */
  ghost predicate Unhindered(arena: Arena, origin: Origin, process: Process, op: Op) {
    && CutOf(op).None?
    && var plan := StagePlan(arena, origin, process, op);
       plan.Some? ==>
         var events := Progress.EventsOf(plan.value);
         Progress.Able(origin, process.world.wire, events, 2 * events)
  }

  /** The stage carries its plan out, or is hindered. */
  ghost predicate CarriedOut(origin: Origin, world: World, plan: Plan, cut: Option<nat>, free: bool) {
    var (after, finish) := Carry(origin, world, plan, cut);
    && (free ==> finish.Ended?)
    && (finish.Ended? ==> finish.ending == EndingOf(plan))
  }

  lemma UnhinderedIsCarriedOut(arena: Arena, origin: Origin, process: Process, op: Op)
    requires StagePlan(arena, origin, process, op).Some?
    ensures CarriedOut(origin, process.world, StagePlan(arena, origin, process, op).value, CutOf(op),
                       Unhindered(arena, origin, process, op))
  {
    hide StagePlan, Perform, PerformFirst, Progress.Able;
    var plan := StagePlan(arena, origin, process, op).value;
    CarryEnds(origin, process.world, plan, CutOf(op));
    if Unhindered(arena, origin, process, op) {
      var events := Progress.EventsOf(plan);
      Progress.PlanSucceeds(origin, process.world, plan, 2 * events);
    }
  }

  /** A session lives through a stage only if that holds; and if nothing hinders the stage, exactly if. */
  ghost predicate LivesIff(arena: Arena, origin: Origin, process: Process, op: Op)
    requires arena.Expected().Ok? && Reaches(process, op)
  {
    var alive := !Step(arena, origin, process, op).phase.Down?;
    && (alive ==> Lives(arena, origin, process, op))
    && (Unhindered(arena, origin, process, op) && Lives(arena, origin, process, op) ==> alive)
  }

  lemma InitializeLivesIff(arena: Arena, origin: Origin, process: Process, op: Op)
    requires arena.Expected().Ok? && op.Initialize? && process.phase.Down?
    requires Settled(origin.crypto, process.world.wire)
    ensures LivesIff(arena, origin, process, op)
  {
    hide Carry, InitializePlan, ExpectedCycleCount, Own, Cycles, Settled, Unhindered;
    if op.now < arena.span.endsAt {
      var started := Own(origin, process.world) != [];
      UnhinderedIsCarriedOut(arena, origin, process, op);
      InitializeCountsNothing(arena, started, op.contents);
      hide PlanCycles;
      CarryCounts(origin, process.world, InitializePlan(arena, started, op.contents), op.cut);
    }
  }

  lemma RecoverLivesIff(arena: Arena, origin: Origin, process: Process, op: Op)
    requires arena.Expected().Ok? && op.Recover? && process.phase.ChainReady?
    ensures LivesIff(arena, origin, process, op)
  {
    hide Carry, RecoverPlan, ExpectedCycleCount, Own, Cycles, Unhindered, MayStart, Answered, Drafts;
    UnhinderedIsCarriedOut(arena, origin, process, op);
    RecoverEnds(arena, process.world.risk, op.first, op.env, op.day);
  }

  lemma CatchUpLivesIff(arena: Arena, origin: Origin, process: Process, op: Op)
    requires arena.Expected().Ok? && op.CatchUp? && process.phase.StateReady?
    ensures LivesIff(arena, origin, process, op)
  {
    hide Carry, CatchUpPlan, ResumePlan, DueCycleCount, ExpectedCycleCount, Own, Cycles, Unhindered,
         AllMissed, Drafts;
    DueWithinSchedule(arena, op.now);
    UnhinderedIsCarriedOut(arena, origin, process, op);
    CatchUpRecordsAll(arena, process.phase.completed,
                      DueCycleCount(arena.span, arena.cooldown, op.now).value, op.missing, op.resume,
                      op.content, process.phase.risk);
  }

  lemma TickLivesIff(arena: Arena, origin: Origin, process: Process, op: Op)
    requires arena.Expected().Ok? && op.CycleTick? && process.phase.Running?
    ensures LivesIff(arena, origin, process, op)
  {
    hide Carry, CyclePlan, LifecyclePlan, ExpectedCycleCount, ScheduledCycleAt, Own, Cycles, Unhindered,
         EndsAlive, Drafts;
    var completed, risk, wake := process.phase.completed, process.phase.risk, op.wake;
    UnhinderedIsCarriedOut(arena, origin, process, op);
    LifecycleEnds(RunStopped, wake.content, risk);
    CycleEndsIff(arena.live, wake.env, risk);
    MissedTells(arena, completed, wake.missing, risk, End(Completed(false), risk));
  }

  lemma LifecycleLivesIff(arena: Arena, origin: Origin, process: Process, op: Op)
    requires arena.Expected().Ok? && op.Lifecycle? && process.phase.Running?
    ensures LivesIff(arena, origin, process, op)
  {
    hide Carry, LifecyclePlan, ExpectedCycleCount, Own, Cycles, Unhindered;
    UnhinderedIsCarriedOut(arena, origin, process, op);
    LifecycleEnds(ControlKind(op.control), op.content, process.phase.risk);
  }

  /** Whatever the crashes and the answers, a session lives through a stage only if the stage can be lived
      through; and if the stage is not cut and the run's events can be signed, stored and delivered, it
      does exactly then. */
  lemma StagesAreLivedThrough(arena: Arena, origin: Origin, process: Process, op: Op)
    requires arena.Expected().Ok? && Reaches(process, op)
    requires Settled(origin.crypto, process.world.wire)
    ensures LivesIff(arena, origin, process, op)
  {
    hide Step, ExpectedCycleCount, Settled, LivesIff;
    match op {
      case Initialize(_, _, _) => InitializeLivesIff(arena, origin, process, op);
      case Recover(_, _, _, _) => RecoverLivesIff(arena, origin, process, op);
      case CatchUp(_, _, _, _, _) => CatchUpLivesIff(arena, origin, process, op);
      case CycleTick(_, _) => TickLivesIff(arena, origin, process, op);
      case Lifecycle(_, _, _) => LifecycleLivesIff(arena, origin, process, op);
    }
  }
}
