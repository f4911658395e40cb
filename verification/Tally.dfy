/** What a stage makes of the day's order count and the reconciliation time, exactly. */
module Tally {
  import opened Arithmetic
  import opened Policy
  import opened Book
  import opened Market
  import opened Events
  import opened Journal
  import opened Writer
  import opened Schedule
  import opened Live
  import opened LiveTheorems
  import opened Session
  import opened SessionTheorems
  import opened Trace
  import opened RiskMemory

  // ---------------------------------------------------------------- how many orders a day has seen

  /** The count a day goes on from. */
  function CountOn(risk: LiveRiskState, day: int): nat {
    if risk.tradingDay == day then risk.ordersToday else 0
  }

  /** Every state the plan stores is for the day and counts no more than the plan's orders beyond `count`;
      the one it ends with, if the session lives on, counts exactly those it sent and has the time. */
  predicate Tallies(plan: Plan, day: int, count: nat, time: Option<u64>) {
    && (forall state :: state in Stores(plan) ==>
          state.tradingDay == day && count <= state.ordersToday <= count + |Sendings(plan)|)
    && (Survives(EndingOf(plan)) ==>
          && RiskOf(plan).tradingDay == day && RiskOf(plan).ordersToday == count + |Sendings(plan)|
          && time == Some(RiskOf(plan).lastReconciliationMs))
  }

  lemma TalliesQuietly(act: Act, rest: Plan, day: int, count: nat, time: Option<u64>)
    requires act.EmitEvent? && Tallies(rest, day, count, time)
    ensures Tallies(Then(act, rest), day, count, time)
  {
    hide Stores, Sendings, EndingOf, RiskOf;
    NotStoring(act, rest);
    QuietAct(act, rest);
  }

  lemma TalliesStoring(state: LiveRiskState, ending: Ending, day: int)
    requires state.tradingDay == day
    ensures Tallies(Then(StoreRisk(state), End(ending, state)), day, state.ordersToday,
                    Some(state.lastReconciliationMs))
  {
    Storing(state, End(ending, state));
  }

  lemma EndTallies(ending: Ending, risk: LiveRiskState, day: int, count: nat, time: Option<u64>)
    requires !Survives(ending)
    ensures Tallies(End(ending, risk), day, count, time)
  {
  }

  lemma UpdateTallies(risk: LiveRiskState, account: AccountSnapshot, day: int)
    ensures var later := UpdateRiskState(risk, account, day);
            && later.tradingDay == day && later.ordersToday == CountOn(risk, day)
            && later.lastReconciliationMs == risk.lastReconciliationMs
  {
  }

  lemma ReconcileTallies(leverage: u8, cycleId: Option<nat>, env: ReconcileEnv, day: int,
                         risk: LiveRiskState, submitted: bool)
    ensures Tallies(ReconcilePlan(leverage, cycleId, env, day, risk, submitted), day, CountOn(risk, day),
                    env.at)
  {
    hide ValidAccount, UpdateRiskState, Tallies;
    var plan := ReconcilePlan(leverage, cycleId, env, day, risk, submitted);
    if plan.End? {
      EndTallies(plan.ending, risk, day, CountOn(risk, day), env.at);
    } else {
      var later := AfterReconcile(risk, env, day);
      UpdateTallies(risk.(lastReconciliationMs := env.at.value), env.account.value, day);
      var store := plan.rest.rest.rest.rest;
      TalliesStoring(later, Completed(submitted), day);
      TalliesQuietly(plan.rest.rest.rest.act, store, day, later.ordersToday, env.at);
      TalliesQuietly(plan.rest.rest.act, plan.rest.rest.rest, day, later.ordersToday, env.at);
      TalliesQuietly(plan.rest.act, plan.rest.rest, day, later.ordersToday, env.at);
      TalliesQuietly(plan.act, plan.rest, day, later.ordersToday, env.at);
    }
  }

  lemma DeclinedTallies(env: CycleEnv, risk: LiveRiskState)
    requires risk.tradingDay == env.day
    ensures Tallies(Declined(env, risk), env.day, risk.ordersToday, Some(risk.lastReconciliationMs))
  {
    hide Tallies;
    TalliesStoring(risk, Completed(false), env.day);
    TalliesQuietly(Declined(env, risk).act, Declined(env, risk).rest, env.day, risk.ordersToday,
                   Some(risk.lastReconciliationMs));
  }

  /** A counted order and its submission. */
  lemma TalliesCounting(state: LiveRiskState, submission: Submission, tail: Plan, day: int, count: nat,
                        time: Option<u64>)
    requires state.tradingDay == day && state.ordersToday == count + 1
    requires Tallies(tail, day, count + 1, time) && Sendings(tail) == []
    ensures Tallies(Then(StoreRisk(state), Then(SubmitIoc(submission), tail)), day, count, time)
  {
    hide Stores, EndingOf, RiskOf;
    var send := Then(SubmitIoc(submission), tail);
    NotStoring(SubmitIoc(submission), tail);
    Storing(state, send);
    assert Sendings(send) == [submission];
    QuietAct(StoreRisk(state), send);
  }

  lemma DispatchTallies(config: LiveConfig, env: CycleEnv, order: OrderDecision, basis: Basis)
    requires basis.risk.tradingDay == env.day && basis.risk.ordersToday < U16_MAX
    ensures Tallies(DispatchPlan(config, env, order, basis), env.day, basis.risk.ordersToday,
                    env.reconcile.at)
  {
    hide Tallies, ReconcilePlan, Sendings;
    var plan, later := DispatchPlan(config, env, order, basis), Counted(basis.risk);
    var count, store := basis.risk.ordersToday, plan.rest.rest;
    var tail := store.rest.rest;
    if env.dispatch.accepted {
      ReconcileTallies(config.isolatedLeverage, Some(env.cycleId), env.reconcile, env.day, later, true);
      ReconcileCountsNothing(config.isolatedLeverage, Some(env.cycleId), env.reconcile, env.day, later,
                             true);
      TalliesQuietly(tail.act, tail.rest, env.day, count + 1, env.reconcile.at);
      QuietAct(tail.act, tail.rest);
    } else {
      EndTallies(VenueFailed, later, env.day, count + 1, env.reconcile.at);
      EndSendsNothing(tail);
    }
    TalliesCounting(later, store.rest.act.submission, tail, env.day, count, env.reconcile.at);
    TalliesQuietly(plan.rest.act, store, env.day, count, env.reconcile.at);
    TalliesQuietly(plan.act, plan.rest, env.day, count, env.reconcile.at);
  }

  lemma EndSendsNothing(plan: Plan)
    requires plan.End?
    ensures Sendings(plan) == []
  {
  }

  /** The time a cycle ends with: that of its reconciliation if it sent an order, the one it found
      otherwise. */
  function TimeAfter(env: CycleEnv, plan: Plan, since: u64): Option<u64> {
    if Sendings(plan) == [] then Some(since) else env.reconcile.at
  }

  lemma OrderTallies(config: LiveConfig, env: CycleEnv, basis: Basis)
    requires basis.view.Usable() && basis.risk.tradingDay == env.day
    ensures var plan := OrderPlan(config, env, basis);
            Tallies(plan, env.day, basis.risk.ordersToday,
                    TimeAfter(env, plan, basis.risk.lastReconciliationMs))
  {
    hide DispatchPlan, Declined, Verdict, MarketableLimit, BookSnapshot.HasTop, MarketView.Usable, Tallies;
    OrderSendsIff(config, env, basis);
    if !Askable(config, basis) {
      EndTallies(OrderPlan(config, env, basis).ending, basis.risk, env.day, basis.risk.ordersToday,
                 Some(basis.risk.lastReconciliationMs));
    } else if Verdict(config, basis).Ok? && env.dispatch.permitted {
      VerdictWithinBudget(config, basis);
      DispatchTallies(config, env, Verdict(config, basis).value, basis);
    } else {
      DeclinedTallies(env, basis.risk);
    }
  }

  lemma ProposalTallies(config: LiveConfig, env: CycleEnv, proposal: Proposal, risk: LiveRiskState)
    requires risk.tradingDay == env.day
    ensures var plan := ProposalPlan(config, env, proposal, risk);
            Tallies(plan, env.day, risk.ordersToday, TimeAfter(env, plan, risk.lastReconciliationMs))
  {
    hide OrderPlan, UpdateRiskState, ValidAccount, MarketView.Usable, ObservedView, Tallies;
    var plan := ProposalPlan(config, env, proposal, risk);
    if plan.End? {
      EndTallies(plan.ending, plan.risk, env.day, risk.ordersToday,
                 TimeAfter(env, plan, risk.lastReconciliationMs));
    } else {
      var account := env.dispatch.account.value;
      UpdateTallies(risk, account, env.day);
      OrderTallies(config, env, Basis(account, ObservedView(env.dispatch), proposal,
                                      UpdateRiskState(risk, account, env.day)));
      QuietAct(plan.act, plan.rest);
      TalliesQuietly(plan.act, plan.rest, env.day, risk.ordersToday,
                     TimeAfter(env, plan, risk.lastReconciliationMs));
    }
  }

  lemma {:induction false} ReceiptsTally(env: CycleEnv, receipts: seq<Content>, rest: Plan, day: int,
                                         count: nat, time: Option<u64>)
    requires Tallies(rest, day, count, time)
    ensures Tallies(ReceiptPlan(env, receipts, rest), day, count, time)
    decreases |receipts|
  {
    hide Tallies;
    if receipts != [] {
      ReceiptsTally(env, receipts[1..], rest, day, count, time);
      TalliesQuietly(Note(Some(env.cycleId), InferenceReceipt, receipts[0]),
                     ReceiptPlan(env, receipts[1..], rest), day, count, time);
    }
  }

  lemma DecisionTallies(config: LiveConfig, env: CycleEnv, risk: LiveRiskState)
    requires risk.tradingDay == env.day
    ensures var plan := DecisionPlan(config, env, risk);
            Tallies(plan, env.day, risk.ordersToday, TimeAfter(env, plan, risk.lastReconciliationMs))
  {
    hide ProposalPlan, Declined, ReceiptPlan, Tallies;
    var plan := DecisionPlan(config, env, risk);
    match env.decision {
      case Failed =>
        TalliesStoring(risk, ModelFailed, env.day);
        TalliesQuietly(plan.act, plan.rest, env.day, risk.ordersToday, Some(risk.lastReconciliationMs));
        QuietAct(plan.rest.act, plan.rest.rest);
        QuietAct(plan.act, plan.rest);
        EndSendsNothing(plan.rest.rest);
      case Decided(receipts, proposal) =>
        var decided := DecidedPlan(config, env, proposal, risk);
        if proposal.None? {
          DeclinedTallies(env, risk);
        } else {
          ProposalTallies(config, env, proposal.value, risk);
        }
        var time := TimeAfter(env, plan, risk.lastReconciliationMs);
        DeclinedCountsNothing(env, risk);
        QuietAct(decided.act, decided.rest);
        ReceiptsCountNothing(env, receipts, decided);
        TalliesQuietly(decided.act, decided.rest, env.day, risk.ordersToday, time);
        ReceiptsTally(env, receipts, decided, env.day, risk.ordersToday, time);
    }
  }

  /** A cycle counts its order, if it sends one, on the day's count, and nothing else. */
  lemma CycleTallies(config: LiveConfig, env: CycleEnv, risk: LiveRiskState)
    ensures var plan := CyclePlan(config, env, risk);
            Tallies(plan, env.day, CountOn(risk, env.day),
                    TimeAfter(env, plan, risk.lastReconciliationMs))
  {
    hide DecisionPlan, UpdateRiskState, ValidAccount, Tallies;
    var plan := CyclePlan(config, env, risk);
    if plan.End? {
      EndTallies(plan.ending, plan.risk, env.day, CountOn(risk, env.day),
                 TimeAfter(env, plan, risk.lastReconciliationMs));
    } else {
      var dated := UpdateRiskState(risk, env.account.value, env.day);
      UpdateTallies(risk, env.account.value, env.day);
      DecisionTallies(config, env, dated);
      var third, time := plan.rest.rest.rest, TimeAfter(env, plan, risk.lastReconciliationMs);
      QuietAct(third.act, third.rest);
      QuietAct(plan.rest.rest.act, third);
      QuietAct(plan.rest.act, plan.rest.rest);
      QuietAct(plan.act, plan.rest);
      TalliesQuietly(third.act, third.rest, env.day, dated.ordersToday, time);
      TalliesQuietly(plan.rest.rest.act, third, env.day, dated.ordersToday, time);
      TalliesQuietly(plan.rest.act, plan.rest.rest, env.day, dated.ordersToday, time);
      TalliesQuietly(plan.act, plan.rest, env.day, dated.ordersToday, time);
    }
  }

  /** The day a stage asks the clock for, if it sees an account. */
  function DayOf(arena: Arena, before: Process, op: Op): Option<int> {
    if arena.Expected().Err? then None
    else
      match op
      case Recover(_, _, day, _) => if before.phase.ChainReady? then Some(day) else None
      case CycleTick(wake, _) =>
        if before.phase.Running? && wake.running && !UsedUp(arena, before.phase.completed, wake.now)
        then Some(wake.env.day) else None
      case _ => None
  }

  /** The reconciliation time after a stage: that of its reconciliation if it recovered or sent an order,
      the one before it otherwise. */
  function TimeOf(op: Op, since: u64, sent: int): Option<u64> {
    match op
    case Recover(_, env, _, _) => env.at
    case CycleTick(wake, _) => if sent > 0 then wake.env.reconcile.at else Some(since)
    case _ => Some(since)
  }

  /** The stored count and time after a stage: if the session lives on, the orders of the day up to the
      stage and those it sent, and the time of its reconciliation; a stage cut short may have counted the
      order it was about to send. */
  predicate CountsTrue(arena: Arena, before: Process, op: Op, after: Process) {
    var sent := |after.world.submissions| - |before.world.submissions|;
    var day, alive := DayOf(arena, before, op), Memory(after.phase).Some?;
    if before.world.risk.None? then
      after.world.risk.Some? ==>
        && after.world.risk.value.ordersToday == 0
        && (alive ==> TimeOf(op, 0, 0) == Some(after.world.risk.value.lastReconciliationMs))
    else if day.None? then after.world.risk == before.world.risk
    else
      var held, count := before.world.risk.value, CountOn(before.world.risk.value, day.value);
      && after.world.risk.Some?
      && var stored := after.world.risk.value;
         || (!alive && stored == held)
         || (&& stored.tradingDay == day.value && count <= stored.ordersToday <= count + 1
             && (alive ==>
                   && stored.ordersToday == count + sent
                   && TimeOf(op, held.lastReconciliationMs, sent) == Some(stored.lastReconciliationMs)))
  }

  lemma CarryTallies(origin: Origin, world: World, plan: Plan, cut: Option<nat>, day: int, count: nat,
                     time: Option<u64>)
    requires Tallies(plan, day, count, time) && |Sendings(plan)| <= 1
    ensures var (after, finish) := Carry(origin, world, plan, cut);
            && (after.risk == world.risk
                || (&& after.risk.Some? && after.risk.value.tradingDay == day
                    && count <= after.risk.value.ordersToday <= count + |Sendings(plan)|))
            && (Survived(finish) ==>
                  && finish.risk.tradingDay == day
                  && finish.risk.ordersToday
                     == count + |after.submissions| - |world.submissions|
                  && time == Some(finish.risk.lastReconciliationMs))
  {
    hide Carry, Stores, StoredBy, RiskOf, EndingOf, Sendings;
    CarryStores(origin, world, plan, cut);
    CarrySends(origin, world, plan, cut);
    CarrySendsAll(origin, world, plan, cut);
  }

  lemma CarryStoresNothing(origin: Origin, world: World, plan: Plan, cut: Option<nat>)
    requires Stores(plan) == []
    ensures Carry(origin, world, plan, cut).0.risk == world.risk
  {
    hide Carry, Stores;
    CarryStores(origin, world, plan, cut);
  }

  lemma LifecycleStoresNothing(kind: Kind, content: Content, risk: LiveRiskState)
    ensures Stores(LifecyclePlan(kind, content, risk)) == []
  {
    NotStoring(Note(None, kind, content), End(Completed(false), risk));
  }

  lemma MissedStoresNothing(arena: Arena, index: nat, missing: Missing, risk: LiveRiskState, rest: Plan)
    requires Stores(rest) == []
    ensures Stores(MissedPlan(arena, index, missing, risk, rest)) == []
  {
    hide ScheduledCycleAt;
    var plan := MissedPlan(arena, index, missing, risk, rest);
    if plan.Then? {
      NotStoring(plan.act, rest);
    }
  }

  lemma {:induction false} CatchUpStoresNothing(arena: Arena, completed: nat, due: nat,
                                                missing: nat -> Missing, risk: LiveRiskState, rest: Plan)
    requires Stores(rest) == []
    ensures Stores(CatchUpPlan(arena, completed, due, missing, risk, rest)) == []
    decreases due - completed
  {
    hide MissedPlan, Stores;
    if completed < due {
      CatchUpStoresNothing(arena, completed + 1, due, missing, risk, rest);
      MissedStoresNothing(arena, completed, missing(completed), risk,
                          CatchUpPlan(arena, completed + 1, due, missing, risk, rest));
    }
  }

  lemma RecoverCounts(arena: Arena, origin: Origin, process: Process, op: Op)
    requires op.Recover? && arena.Expected().Ok? && process.phase.ChainReady?
    ensures CountsTrue(arena, process, op, Step(arena, origin, process, op))
  {
    hide Carry, ReconcilePlan, ExpectedCycleCount, Tallies, ValidInitialAccount, Sendings;
    var Recover(first, env, day, cut) := op;
    var world, leverage := process.world, arena.live.isolatedLeverage;
    var plan := RecoverPlan(arena, world.risk, first, env, day);
    RecoverCountsNothing(arena, world.risk, first, env, day);
    if world.risk.Some? {
      var held := world.risk.value;
      ReconcileTallies(leverage, None, env, day, held, false);
      CarryTallies(origin, world, plan, cut, day, CountOn(held, day), env.at);
      var _, _ := RecoverStage(arena, origin, process, op);
    } else {
      FirstCountsNothing(arena, first, env, day);
      CarryStores(origin, world, plan, cut);
      var _, _ := RecoverStage(arena, origin, process, op);
    }
  }

  lemma FirstCountsNothing(arena: Arena, first: FirstState, env: ReconcileEnv, day: int)
    ensures forall state :: state in Stores(RecoverPlan(arena, None, first, env, day)) ==>
              state.ordersToday == 0
    ensures var plan := RecoverPlan(arena, None, first, env, day);
            Survives(EndingOf(plan)) ==> env.at == Some(RiskOf(plan).lastReconciliationMs)
  {
    hide ReconcilePlan, ValidInitialAccount;
    var plan := RecoverPlan(arena, None, first, env, day);
    if plan.Then? {
      var risk, leverage := FirstRisk(first), arena.live.isolatedLeverage;
      ReconcileTallies(leverage, None, env, day, risk, false);
      ReconcileCountsNothing(leverage, None, env, day, risk, false);
      Storing(risk, plan.rest);
    } else {
      assert Stores(plan) == [];
    }
  }

  lemma CatchUpCountsTrue(arena: Arena, origin: Origin, process: Process, op: Op)
    requires op.CatchUp? && arena.Expected().Ok? && process.phase.StateReady?
    ensures Step(arena, origin, process, op).world.risk == process.world.risk
  {
    hide Carry, CatchUpPlan, LifecyclePlan, DueCycleCount, ExpectedCycleCount;
    var due, risk := DueCycleCount(arena.span, arena.cooldown, op.now), process.phase.risk;
    if due.Ok? {
      var completed := process.phase.completed;
      var finished := Max(completed, due.value) >= arena.Expected().value;
      var tail := ResumePlan(finished, op.resume, op.content, risk);
      LifecycleStoresNothing(RunStopped, op.content, risk);
      LifecycleStoresNothing(RunResumed, op.content, risk);
      assert Stores(tail) == [];
      CatchUpStoresNothing(arena, completed, due.value, op.missing, risk, tail);
      CarryStoresNothing(origin, process.world,
                         CatchUpPlan(arena, completed, due.value, op.missing, risk, tail), op.cut);
    }
  }

  lemma TickCountsTrue(arena: Arena, origin: Origin, process: Process, op: Op)
    requires op.CycleTick? && arena.Expected().Ok? && process.phase.Running? && InMemory(process)
    ensures CountsTrue(arena, process, op, Step(arena, origin, process, op))
  {
    hide Carry, CyclePlan, LifecyclePlan, MissedPlan, ExpectedCycleCount, Tallies, Sendings, Stores;
    var completed, risk, wake := process.phase.completed, process.phase.risk, op.wake;
    var plan := TickPlan(arena, completed, wake, risk);
    if !Closing(arena, completed, wake.now) && wake.running {
      CycleTallies(arena.live, wake.env, risk);
      TickCounts(arena, completed, wake, risk);
      CarrySendsAll(origin, process.world, plan, op.cut);
      CarryTallies(origin, process.world, plan, op.cut, wake.env.day, CountOn(risk, wake.env.day),
                   TimeAfter(wake.env, plan, risk.lastReconciliationMs));
      var _ := TickStage(arena, origin, process, op);
    } else {
      LifecycleStoresNothing(RunStopped, wake.content, risk);
      NoStores(End(Completed(false), risk));
      MissedStoresNothing(arena, completed, wake.missing, risk, End(Completed(false), risk));
      CarryStoresNothing(origin, process.world, plan, op.cut);
    }
  }

  lemma NoStores(plan: Plan)
    requires plan.End?
    ensures Stores(plan) == []
  {
  }

  lemma StepCounts(arena: Arena, origin: Origin, process: Process, op: Op)
    requires InMemory(process)
    ensures CountsTrue(arena, process, op, Step(arena, origin, process, op))
  {
    hide Carry, InitializePlan, LifecyclePlan, CatchUpStep, TickStep, RecoverStep, ExpectedCycleCount, Own,
         Cycles, Stores;
    var phase := process.phase;
    if arena.Expected().Ok? && op.Initialize? && phase.Down? {
      var started := Own(origin, process.world) != [];
      InitializeStoresNothing(arena, started, op.contents);
      CarryStoresNothing(origin, process.world, InitializePlan(arena, started, op.contents), op.cut);
    } else if arena.Expected().Ok? && op.Recover? && phase.ChainReady? {
      RecoverCounts(arena, origin, process, op);
    } else if arena.Expected().Ok? && op.CatchUp? && phase.StateReady? {
      CatchUpCountsTrue(arena, origin, process, op);
    } else if arena.Expected().Ok? && op.CycleTick? && phase.Running? {
      TickCountsTrue(arena, origin, process, op);
    } else if arena.Expected().Ok? && op.Lifecycle? && phase.Running? {
      var kind, risk := ControlKind(op.control), phase.risk;
      LifecycleStoresNothing(kind, op.content, risk);
      CarryStoresNothing(origin, process.world, LifecyclePlan(kind, op.content, risk), op.cut);
    }
  }

  /** Over a run the stored count of a day's orders changes only with the day and with the orders sent:
      each stage that lives on adds exactly the orders it sent, from zero on a new day; a stage cut short
      may have counted the one order it was about to send. The reconciliation time moves with a recovery or
      an order that is lived through, to the time their reconciliation was asked for. */
  lemma OrdersAreCounted(arena: Arena, origin: Origin, world: World, ops: seq<Op>, n: nat)
    requires world.risk.None? && n < |ops|
    ensures var start := Process(world, Down);
            CountsTrue(arena, AfterOps(arena, origin, start, ops[..n]), ops[n],
                       AfterOps(arena, origin, start, ops[..n + 1]))
  {
    hide Step, Remembers, KeptBy, FirstOf, CountsTrue;
    var _, _ := EveryRunRemembers(arena, origin, world, ops[..n]);
    assert ops[..n + 1][..n] == ops[..n];
    StepCounts(arena, origin, AfterOps(arena, origin, Process(world, Down), ops[..n]), ops[n]);
  }
}
