/** Exactly which clocks keep the daily order cap: the bound on the orders of a day is attained. */
module Clock {
  import opened Arithmetic
  import opened Policy
  import opened Book
  import opened Market
  import opened Events
  import opened Journal
  import opened Writer
  import opened WriterTheorems
  import opened Schedule
  import opened Live
  import opened LiveTheorems
  import opened Session
  import opened SessionTheorems
  import opened Progress
  import Decimal
  import DecimalTheorems
  import PolicyTheorems

  // ---------------------------------------------------------------- an arena that can trade

  /** A risk state of an account whose equity never moves. */
  function FlatRisk(equity: i64, day: int, orders: u16, last: u64): LiveRiskState {
    LiveRiskState(day, equity, equity, orders, last)
  }

  function BasisOf(env: CycleEnv, risk: LiveRiskState): Basis
    requires env.account.Some? && env.dispatch.nowMs.Some? && env.dispatch.view.Some?
    requires env.decision.Decided? && env.decision.proposal.Some?
  {
    Basis(env.account.value, ObservedView(env.dispatch), env.decision.proposal.value, risk)
  }

  /** A reconciliation that succeeds, on an account with this equity. */
  predicate Steady(arena: Arena, equity: i64, env: ReconcileEnv) {
    && env.at.Some? && env.fills && env.funding
    && env.account.Some? && env.account.value.equity == equity
    && ValidAccount(env.account.value, arena.live.isolatedLeverage)
  }

  /** Neither the day's starting equity nor the peak differs from the account's. */
  predicate Flat(equity: i64, risk: LiveRiskState) {
    risk.dayStartEquity == risk.peakEquity == equity
  }

  /** Every call answers, always with the same account, and the gate is open. */
  predicate Answered(arena: Arena, env: CycleEnv) {
    && env.nowMs.Some? && env.snapshots && env.candles
    && env.account.Some? && env.dispatch.account == env.account && env.reconcile.account == env.account
    && Steady(arena, env.account.value.equity, env.reconcile)
    && env.decision.Decided? && env.decision.receipts == [] && env.decision.proposal.Some?
    && env.dispatch.nowMs.Some? && env.dispatch.view.Some? && ObservedView(env.dispatch).Usable()
    && env.dispatch.permitted && env.dispatch.accepted
  }

  /** The policy approves the cycle's proposal on the first order of a day. */
  predicate Trades(arena: Arena, env: CycleEnv) {
    && Answered(arena, env)
    && var basis := BasisOf(env, FlatRisk(env.account.value.equity, 0, 0, 0));
       Askable(arena.live, basis) && Verdict(arena.live, basis).Ok?
  }

  /** The verdict depends on the count of the day alone. */
  lemma VerdictByCount(arena: Arena, env: CycleEnv, risk: LiveRiskState)
    requires Trades(arena, env)
    requires risk.dayStartEquity == risk.peakEquity == env.account.value.equity
    ensures var basis := BasisOf(env, risk);
            && Askable(arena.live, basis)
            && (Verdict(arena.live, basis).Ok? <==> risk.ordersToday < arena.live.rules.maxOrdersDay)
  {
    hide EvaluateProposal, MarketView.Usable, MarketOf, MarketableLimit;
    var first := BasisOf(env, FlatRisk(env.account.value.equity, 0, 0, 0));
    PolicyTheorems.OnlyTheCountMatters(MarketableProposal(first), DispatchContext(arena.live, first),
                                       Verdict(arena.live, first).value, risk.ordersToday);
  }

  // ---------------------------------------------------------------- one trading cycle

  /** The count a cycle on the day starts from. */
  function CountOn(risk: LiveRiskState, day: int): u16 {
    if risk.tradingDay == day then risk.ordersToday else 0
  }

  function AfterTrade(env: CycleEnv, risk: LiveRiskState, day: int, cap: int): LiveRiskState
    requires env.account.Some? && env.reconcile.at.Some?
    requires CountOn(risk, day) < cap ==> CountOn(risk, day) < U16_MAX
  {
    var equity, count := env.account.value.equity, CountOn(risk, day);
    if count < cap then FlatRisk(equity, day, count + 1, env.reconcile.at.value)
    else FlatRisk(equity, day, count, risk.lastReconciliationMs)
  }

  /** What a plan amounts to: its ending, the states it leaves, and what it sends. */
  datatype Effect = Effect(ending: Ending, risk: LiveRiskState, stored: Option<LiveRiskState>,
                           sent: seq<Submission>, events: nat)

  function EffectOf(plan: Plan, held: Option<LiveRiskState>): Effect {
    Effect(EndingOf(plan), RiskOf(plan), StoredBy(plan, held), Sendings(plan), EventsOf(plan))
  }

  lemma EffectOfEnd(ending: Ending, risk: LiveRiskState, held: Option<LiveRiskState>)
    ensures EffectOf(End(ending, risk), held) == Effect(ending, risk, held, [], 0)
  {
  }

  lemma EffectOfNote(act: Act, rest: Plan, held: Option<LiveRiskState>)
    requires act.EmitEvent? || act.FlushFirst?
    ensures var after := EffectOf(rest, held);
            EffectOf(Then(act, rest), held) == after.(events := after.events + 1)
  {
    QuietAct(act, rest);
  }

  lemma EffectOfStore(state: LiveRiskState, rest: Plan, held: Option<LiveRiskState>)
    ensures EffectOf(Then(StoreRisk(state), rest), held) == EffectOf(rest, Some(state))
  {
    QuietAct(StoreRisk(state), rest);
  }

  lemma EffectOfSubmit(submission: Submission, rest: Plan, held: Option<LiveRiskState>)
    ensures var after := EffectOf(rest, held);
            EffectOf(Then(SubmitIoc(submission), rest), held)
            == after.(sent := [submission] + after.sent)
  {
  }

  lemma ReconcileEffect(arena: Arena, equity: i64, env: ReconcileEnv, cycleId: Option<nat>, day: int,
                        risk: LiveRiskState, submitted: bool, held: Option<LiveRiskState>)
    requires Steady(arena, equity, env) && Flat(equity, risk)
    ensures var plan := ReconcilePlan(arena.live.isolatedLeverage, cycleId, env, day, risk, submitted);
            var later := FlatRisk(equity, day, CountOn(risk, day), env.at.value);
            EffectOf(plan, held) == Effect(Completed(submitted), later, Some(later), [], 4)
  {
    hide ValidAccount, EffectOf;
    var plan := ReconcilePlan(arena.live.isolatedLeverage, cycleId, env, day, risk, submitted);
    var later := AfterReconcile(risk, env, day);
    var third := plan.rest.rest.rest;
    var store := third.rest;
    EffectOfEnd(Completed(submitted), later, Some(later));
    EffectOfStore(later, store.rest, held);
    EffectOfNote(third.act, store, held);
    EffectOfNote(plan.rest.rest.act, third, held);
    EffectOfNote(plan.rest.act, plan.rest.rest, held);
    EffectOfNote(plan.act, plan.rest, held);
  }

  lemma DeclinedEffect(env: CycleEnv, risk: LiveRiskState, held: Option<LiveRiskState>)
    ensures EffectOf(Declined(env, risk), held) == Effect(Completed(false), risk, Some(risk), [], 1)
  {
    hide EffectOf;
    var plan := Declined(env, risk);
    EffectOfEnd(Completed(false), risk, Some(risk));
    EffectOfStore(risk, plan.rest.rest, held);
    EffectOfNote(plan.act, plan.rest, held);
  }

  lemma DispatchEffect(arena: Arena, env: CycleEnv, order: OrderDecision, basis: Basis,
                       held: Option<LiveRiskState>)
    requires Answered(arena, env) && basis.risk.tradingDay == env.day
    requires basis.risk.dayStartEquity == basis.risk.peakEquity == env.account.value.equity
    requires basis.risk.ordersToday < U16_MAX
    ensures var later := FlatRisk(env.account.value.equity, env.day, basis.risk.ordersToday + 1,
                                  env.reconcile.at.value);
            EffectOf(DispatchPlan(arena.live, env, order, basis), held)
            == Effect(Completed(true), later, Some(later),
                      [Submission(env.day, env.dispatch.clientOrderId, order, basis)], 7)
  {
    hide EffectOf, ReconcilePlan, ValidAccount, MarketView.Usable;
    var plan := DispatchPlan(arena.live, env, order, basis);
    var later := Counted(basis.risk);
    ReconcileEffect(arena, env.account.value.equity, env.reconcile, Some(env.cycleId), env.day, later,
                    true, Some(later));
    var submit := plan.rest.rest.rest;
    EffectOfNote(submit.rest.act, submit.rest.rest, Some(later));
    EffectOfSubmit(submit.act.submission, submit.rest, Some(later));
    EffectOfStore(later, submit, held);
    EffectOfNote(plan.rest.act, plan.rest.rest, held);
    EffectOfNote(plan.act, plan.rest, held);
  }

  /** What a trading cycle from the risk state amounts to: one order while the day's count is below
      the maximum, none after. */
  predicate TradeEffect(arena: Arena, env: CycleEnv, risk: LiveRiskState, effect: Effect)
    requires env.account.Some? && env.reconcile.at.Some?
  {
    var cap := arena.live.rules.maxOrdersDay;
    var sends := CountOn(risk, env.day) < cap;
    && effect.ending == Completed(sends)
    && effect.risk == AfterTrade(env, risk, env.day, cap)
    && effect.stored == Some(effect.risk)
    && |effect.sent| == (if sends then 1 else 0)
    && (sends ==> effect.sent[0].day == env.day)
  }

  lemma OrderShape(config: LiveConfig, env: CycleEnv, basis: Basis)
    requires Askable(config, basis) && env.dispatch.permitted
    ensures OrderPlan(config, env, basis)
            == if Verdict(config, basis).Ok?
               then DispatchPlan(config, env, Verdict(config, basis).value, basis)
               else Declined(env, basis.risk)
  {
  }

  lemma OrderEffect(arena: Arena, env: CycleEnv, risk: LiveRiskState, held: Option<LiveRiskState>)
    requires Trades(arena, env) && risk.tradingDay == env.day
    requires risk.dayStartEquity == risk.peakEquity == env.account.value.equity
    ensures var effect := EffectOf(OrderPlan(arena.live, env, BasisOf(env, risk)), held);
            TradeEffect(arena, env, risk, effect) && effect.events <= 7
  {
    hide EffectOf, Verdict, Askable, OrderPlan, DispatchPlan, Declined, ValidAccount,
         MarketView.Usable;
    var basis := BasisOf(env, risk);
    VerdictByCount(arena, env, risk);
    OrderShape(arena.live, env, basis);
    DeclinedEffect(env, risk, held);
    if risk.ordersToday < arena.live.rules.maxOrdersDay {
      DispatchEffect(arena, env, Verdict(arena.live, basis).value, basis, held);
    }
  }

  lemma FlatUpdate(env: CycleEnv, risk: LiveRiskState, day: int)
    requires env.account.Some?
    requires risk.dayStartEquity == risk.peakEquity == env.account.value.equity
    ensures UpdateRiskState(risk, env.account.value, day)
            == FlatRisk(env.account.value.equity, day, CountOn(risk, day), risk.lastReconciliationMs)
  {
  }

  lemma DecisionShape(arena: Arena, env: CycleEnv, risk: LiveRiskState)
    requires Answered(arena, env) && risk.tradingDay == env.day
    requires risk.dayStartEquity == risk.peakEquity == env.account.value.equity
    ensures DecisionPlan(arena.live, env, risk)
            == Then(Note(Some(env.cycleId), ProposalMade, env.contents.proposal),
               Then(Note(Some(env.cycleId), BookObserved, env.contents.dispatchBook),
               OrderPlan(arena.live, env, BasisOf(env, risk))))
  {
    hide OrderPlan, ValidAccount, MarketView.Usable, ObservedView;
    FlatUpdate(env, risk, env.day);
  }

  lemma CycleShape(arena: Arena, env: CycleEnv, risk: LiveRiskState)
    requires Answered(arena, env)
    ensures var cycleId := Some(env.cycleId);
            CyclePlan(arena.live, env, risk)
            == Then(Note(cycleId, CycleStarted, env.contents.started),
               Then(Note(cycleId, BookObserved, env.contents.book),
               Then(Note(cycleId, CandleClosed, env.contents.candles),
               Then(Note(cycleId, PortfolioObserved, env.contents.portfolio),
               DecisionPlan(arena.live, env, UpdateRiskState(risk, env.account.value, env.day))))))
  {
    hide DecisionPlan, ValidAccount, MarketView.Usable, UpdateRiskState;
  }

  lemma TwoNotes(first: Act, second: Act, rest: Plan, held: Option<LiveRiskState>)
    requires first.EmitEvent? && second.EmitEvent?
    ensures var after := EffectOf(rest, held);
            EffectOf(Then(first, Then(second, rest)), held) == after.(events := after.events + 2)
  {
    hide EffectOf;
    EffectOfNote(second, rest, held);
    EffectOfNote(first, Then(second, rest), held);
  }

  lemma SameTrade(arena: Arena, env: CycleEnv, risk: LiveRiskState, effect: Effect)
    requires env.account.Some? && env.reconcile.at.Some?
    requires risk.dayStartEquity == risk.peakEquity == env.account.value.equity
    requires TradeEffect(arena, env, UpdateRiskState(risk, env.account.value, env.day), effect)
    ensures TradeEffect(arena, env, risk, effect)
  {
  }

  /** A cycle that trades. */
  lemma CycleEffect(arena: Arena, env: CycleEnv, risk: LiveRiskState, held: Option<LiveRiskState>)
    requires Trades(arena, env)
    requires risk.dayStartEquity == risk.peakEquity == env.account.value.equity
    ensures var effect := EffectOf(CyclePlan(arena.live, env, risk), held);
            TradeEffect(arena, env, risk, effect) && effect.events <= 13
  {
    var cycleId, contents := Some(env.cycleId), env.contents;
    var dated := UpdateRiskState(risk, env.account.value, env.day);
    FlatUpdate(env, risk, env.day);
    OrderEffect(arena, env, dated, held);
    CycleShape(arena, env, risk);
    DecisionShape(arena, env, dated);
    hide EffectOf, OrderPlan, DecisionPlan, CyclePlan, Trades, UpdateRiskState;
    var order := OrderPlan(arena.live, env, BasisOf(env, dated));
    TwoNotes(Note(cycleId, ProposalMade, contents.proposal),
             Note(cycleId, BookObserved, contents.dispatchBook), order, held);
    var decision := DecisionPlan(arena.live, env, dated);
    var later := Then(Note(cycleId, CandleClosed, contents.candles),
                 Then(Note(cycleId, PortfolioObserved, contents.portfolio), decision));
    TwoNotes(Note(cycleId, CandleClosed, contents.candles),
             Note(cycleId, PortfolioObserved, contents.portfolio), decision, held);
    TwoNotes(Note(cycleId, CycleStarted, contents.started),
             Note(cycleId, BookObserved, contents.book), later, held);
    SameTrade(arena, env, risk, EffectOf(CyclePlan(arena.live, env, risk), held));
  }

  // ---------------------------------------------------------------- a run under a clock

  /** What a run meets at one reading of the clock: a session that starts, or starts again after the
      last one died, or a wake-up of the session. */
  datatype Moment =
    | Restart(at: Instant, first: FirstState, recovery: ReconcileEnv, day: int)
    | Wakeup(at: Instant, env: CycleEnv)
  {
    function Shown(): Reading {
      match this
      case Restart(_, _, _, day) => Reading(day, 0)
      case Wakeup(_, env) => Reading(env.day, 1)
    }

    function Ops(): seq<Op> {
      var content := Content(at, 0);
      match this
      case Restart(at, first, recovery, day) =>
        [Die, Initialize(at, StartContents(content, content, content), None),
         Recover(first, recovery, day, None),
         CatchUp(at, (index: nat) => Missing(0, at), false, content, None)]
      case Wakeup(at, env) => [CycleTick(Wake(at, true, env, Missing(0, at), content), None)]
    }
  }

  /** What the clock shows, in order. */
  function Shown(moments: seq<Moment>): seq<Reading> {
    if moments == [] then []
    else Shown(moments[..|moments| - 1]) + [moments[|moments| - 1].Shown()]
  }

  function RunOf(moments: seq<Moment>): seq<Op> {
    if moments == [] then []
    else RunOf(moments[..|moments| - 1]) + moments[|moments| - 1].Ops()
  }

  function Due(arena: Arena, at: Instant): nat {
    match DueCycleCount(arena.span, arena.cooldown, at)
    case Ok(due) => due
    case Err(_) => 0
  }

  /** How many cycles the run has accounted for: a restart catches up with the boundaries it missed, a
      wake-up runs the next cycle. */
  function CyclesBy(arena: Arena, moments: seq<Moment>): nat {
    if moments == [] then 0
    else
      var earlier := CyclesBy(arena, moments[..|moments| - 1]);
      match moments[|moments| - 1]
      case Restart(at, _, _, _) => Max(earlier, Due(arena, at))
      case Wakeup(_, _) => earlier + 1
  }

  /** A bound on the run's events. */
  function EventBound(arena: Arena, moments: seq<Moment>): nat {
    13 * |moments| + CyclesBy(arena, moments)
  }

  /** Nothing fails, and nothing but the clock changes: the run begins with a session, every session can
      start, every wake-up has a cycle to run that would trade, and the account's equity never moves. */
  predicate Feasible(arena: Arena, equity: i64, moments: seq<Moment>)
    requires arena.Expected().Ok?
  {
    moments == [] ||
    var earlier, moment := moments[..|moments| - 1], moments[|moments| - 1];
    && Feasible(arena, equity, earlier) && moment.at < arena.span.endsAt
    && match moment
       case Restart(_, first, recovery, _) =>
         && Starts(arena, equity, first) && Steady(arena, equity, recovery)
         && CyclesBy(arena, moments) < arena.Expected().value
       case Wakeup(_, env) =>
         && earlier != [] && CyclesBy(arena, earlier) < arena.Expected().value
         && Trades(arena, env) && env.account.value.equity == equity
  }

  /** A first risk state can be stored. */
  predicate Starts(arena: Arena, equity: i64, first: FirstState) {
    && first.at.Some? && first.account.Some? && first.account.value.equity == equity
    && ValidInitialAccount(arena, first.account.value)
  }

  function Receipts(answers: nat): seq<Answer> {
    seq(answers, (i: nat) => Acked("r"))
  }

  function Start(answers: nat): World {
    World(Wire([], [], Receipts(answers), 0, []), None, None, [])
  }

  lemma ReadingsAppend(ops: seq<Op>, op: Op)
    ensures Readings(ops + [op])
            == Readings(ops) + (if ReadingOf(op).Some? then [ReadingOf(op).value] else [])
  {
    assert (ops + [op])[..|ops|] == ops;
  }

  lemma MomentReads(ops: seq<Op>, moment: Moment)
    ensures Readings(ops + moment.Ops()) == Readings(ops) + [moment.Shown()]
  {
    hide Readings;
    var more := moment.Ops();
    if moment.Restart? {
      ReadingsAppend(ops, more[0]);
      ReadingsAppend(ops + [more[0]], more[1]);
      ReadingsAppend(ops + [more[0]] + [more[1]], more[2]);
      ReadingsAppend(ops + [more[0]] + [more[1]] + [more[2]], more[3]);
      assert ops + more == ops + [more[0]] + [more[1]] + [more[2]] + [more[3]];
    } else {
      ReadingsAppend(ops, more[0]);
      assert ops + more == ops + [more[0]];
    }
  }

  lemma {:induction false} RunReads(moments: seq<Moment>)
    ensures Readings(RunOf(moments)) == Shown(moments)
  {
    if moments != [] {
      RunReads(moments[..|moments| - 1]);
      MomentReads(RunOf(moments[..|moments| - 1]), moments[|moments| - 1]);
    }
  }

  lemma StartIsFresh(origin: Origin, answers: nat)
    ensures Fresh(origin, Start(answers))
    ensures Willing(Start(answers).wire.script, answers)
  {
    EmptyIsSettled(origin.crypto, Receipts(answers));
    assert !Blank("r") by { assert "r"[0] == 'r'; }
  }

  // ---------------------------------------------------------------- what the run keeps

  /** The durable state of the run: it can go on, its journal is no longer than counted and accounts
      for so many cycles, and its stored risk state is flat. */
  ghost predicate Kept(arena: Arena, origin: Origin, equity: i64, world: World, completed: nat,
                       events: nat, answers: nat)
  {
    && Able(origin, world.wire, 0, answers)
    && |Own(origin, world)| <= events && Cycles(Own(origin, world)) == completed
    && (world.risk.Some? ==>
          Flat(equity, world.risk.value)
          && world.risk.value.ordersToday <= arena.live.rules.maxOrdersDay)
  }

  /** A running session, in step with the durable state. */
  ghost predicate Underway(arena: Arena, origin: Origin, equity: i64, process: Process, completed: nat,
                           events: nat, answers: nat)
  {
    && Kept(arena, origin, equity, process.world, completed, events, answers)
    && process.world.risk.Some?
    && process.phase == Running(completed, process.world.risk.value)
  }

  lemma KeptWithLess(arena: Arena, origin: Origin, equity: i64, world: World, completed: nat,
                     events: nat, answers: nat, more: nat, fewer: nat)
    requires Kept(arena, origin, equity, world, completed, events, answers)
    requires events <= more && fewer <= answers
    ensures Kept(arena, origin, equity, world, completed, more, fewer)
  {
    hide Cycles, RunRows, Settled, Authentic, TellsIds;
    WillingLess(world.wire.script, answers, fewer);
  }

  /** A plan that can be carried out leaves the durable state its effect says. */
  lemma PlanKeepsRun(arena: Arena, origin: Origin, equity: i64, world: World, plan: Plan,
                     completed: nat, events: nat, answers: nat)
    requires Kept(arena, origin, equity, world, completed, events, answers)
    requires events + EventsOf(plan) <= I64_MAX && 2 * EventsOf(plan) <= answers
    requires var held := StoredBy(plan, world.risk);
             held.Some? ==>
               Flat(equity, held.value) && held.value.ordersToday <= arena.live.rules.maxOrdersDay
    ensures var (after, finish) := Perform(origin, world, plan);
            && finish == Ended(EndingOf(plan), RiskOf(plan))
            && after.risk == StoredBy(plan, world.risk)
            && after.submissions == world.submissions + Sendings(plan)
            && Kept(arena, origin, equity, after, completed + PlanCycles(plan),
                    events + EventsOf(plan), answers - 2 * EventsOf(plan))
  {
    hide Perform, Cycles, RunRows, Settled, Authentic, TellsIds, Willing, Flat, EndingOf, RiskOf,
         StoredBy, EventsOf, Sendings, PlanCycles;
    PlanSucceeds(origin, world, plan, answers);
    PlanCounts(origin, world, plan);
  }

  // ---------------------------------------------------------------- wake-ups

  /** A wake-up whose cycle is carried out goes on with the next count. */
  lemma TickGoesOn(arena: Arena, origin: Origin, process: Process, moment: Moment)
    requires arena.Expected().Ok? && moment.Wakeup? && moment.at < arena.span.endsAt
    requires process.phase.Running? && process.phase.completed < arena.Expected().value
    requires Survived(Perform(origin, process.world,
                              CyclePlan(arena.live, moment.env, process.phase.risk)).1)
    ensures var (after, finish) := Perform(origin, process.world,
                                           CyclePlan(arena.live, moment.env, process.phase.risk));
            Step(arena, origin, process, moment.Ops()[0])
            == Process(after, Running(process.phase.completed + 1, finish.risk))
  {
    hide Perform, CyclePlan, ExpectedCycleCount;
  }

  /** What sending at most one order does to the count of every day. */
  lemma SendsGrow(before: seq<Submission>, sent: seq<Submission>, sends: bool, day: int)
    requires |sent| == (if sends then 1 else 0) && (sends ==> sent[0].day == day)
    ensures forall watched :: Sends(before + sent, watched)
              == Sends(before, watched) + (if sends && day == watched then 1 else 0)
  {
    hide Sends;
    forall watched
      ensures Sends(before + sent, watched)
              == Sends(before, watched) + (if sends && day == watched then 1 else 0)
    {
      if sends {
        assert sent == [sent[0]];
        SendsOneMore(before, sent[0], watched);
      } else {
        assert before + sent == before;
      }
    }
  }

  /** A trading cycle counts once. */
  lemma TradeCounts(arena: Arena, env: CycleEnv, risk: LiveRiskState)
    requires EndingOf(CyclePlan(arena.live, env, risk)).Completed?
    ensures PlanCycles(CyclePlan(arena.live, env, risk)) == 1
  {
    hide CyclePlan, PlanCycles;
    CycleCountsOnce(arena.live, env, risk);
  }

  lemma TradeIsFlat(arena: Arena, env: CycleEnv, risk: LiveRiskState, effect: Effect)
    requires env.account.Some? && env.reconcile.at.Some? && Flat(env.account.value.equity, risk)
    requires risk.ordersToday <= arena.live.rules.maxOrdersDay
    requires TradeEffect(arena, env, risk, effect)
    ensures Flat(env.account.value.equity, effect.risk)
    ensures effect.risk.tradingDay == env.day
    ensures var count := CountOn(risk, env.day);
            effect.risk.ordersToday == count + (if count < arena.live.rules.maxOrdersDay then 1 else 0)
    ensures effect.risk.ordersToday <= arena.live.rules.maxOrdersDay
  {
  }

  /** A trading cycle, carried out on the durable state. */
  lemma TradeKeepsRun(arena: Arena, origin: Origin, equity: i64, world: World, env: CycleEnv,
                      completed: nat, events: nat, answers: nat)
    requires Trades(arena, env) && env.account.value.equity == equity
    requires Kept(arena, origin, equity, world, completed, events, answers) && world.risk.Some?
    requires 26 <= answers && events + 13 <= I64_MAX
    ensures var plan := CyclePlan(arena.live, env, world.risk.value);
            var (next, finish) := Perform(origin, world, plan);
            && finish.Ended? && TradeEffect(arena, env, world.risk.value, EffectOf(plan, world.risk))
            && finish.ending == EndingOf(plan) && finish.risk == RiskOf(plan)
            && next.risk == Some(finish.risk)
            && next.submissions == world.submissions + Sendings(plan)
            && Kept(arena, origin, equity, next, completed + 1, events + 13, answers - 26)
  {
    hide CyclePlan, Trades, Perform, Able, Own, Cycles, EndingOf, RiskOf, StoredBy, EventsOf, Sendings,
         PlanCycles, Answered;
    var risk := world.risk.value;
    TradesAnswered(arena, env);
    CycleEffect(arena, env, risk, world.risk);
    var plan := CyclePlan(arena.live, env, risk);
    var effect := EffectOf(plan, world.risk);
    TradeIsFlat(arena, env, risk, effect);
    hide TradeEffect, Flat;
    TradeEnds(arena, env, risk, effect);
    TradeCounts(arena, env, risk);
    PlanKeepsRun(arena, origin, equity, world, plan, completed, events, answers);
    KeptWithLess(arena, origin, equity, Perform(origin, world, plan).0, completed + 1,
                 events + effect.events, answers - 2 * effect.events, events + 13, answers - 26);
  }

  lemma TradeEnds(arena: Arena, env: CycleEnv, risk: LiveRiskState, effect: Effect)
    requires env.account.Some? && env.reconcile.at.Some? && TradeEffect(arena, env, risk, effect)
    ensures effect.ending.Completed? && effect.stored == Some(effect.risk)
    ensures effect.ending.submitted <==> CountOn(risk, env.day) < arena.live.rules.maxOrdersDay
    ensures |effect.sent| == (if effect.ending.submitted then 1 else 0)
    ensures effect.ending.submitted ==> effect.sent[0].day == env.day
  {
  }

  lemma WakeupTrades(arena: Arena, origin: Origin, equity: i64, process: Process, moment: Moment,
                     completed: nat, events: nat, answers: nat)
    requires arena.Expected().Ok? && moment.Wakeup? && moment.at < arena.span.endsAt
    requires Trades(arena, moment.env) && moment.env.account.value.equity == equity
    requires completed < arena.Expected().value
    requires Underway(arena, origin, equity, process, completed, events, answers)
    requires 26 <= answers && events + 13 <= I64_MAX
    ensures var next := Step(arena, origin, process, moment.Ops()[0]);
            var day := moment.env.day;
            var count := CountOn(process.phase.risk, day);
            var sends := count < arena.live.rules.maxOrdersDay;
            && Underway(arena, origin, equity, next, completed + 1, events + 13, answers - 26)
            && next.phase.risk.tradingDay == day
            && next.phase.risk.ordersToday == count + (if sends then 1 else 0)
            && (forall watched :: Sends(next.world.submissions, watched)
                  == Sends(process.world.submissions, watched)
                     + (if sends && day == watched then 1 else 0))
  {
    hide CyclePlan, Trades, Perform, Sends, ExpectedCycleCount, Step, Moment.Ops, EndingOf, RiskOf,
         StoredBy, EventsOf, Sendings, Answered, TradeEffect, Kept, Flat;
    var risk, env := process.phase.risk, moment.env;
    UnderwayIsFlat(arena, origin, equity, process, completed, events, answers);
    TradeKeepsRun(arena, origin, equity, process.world, env, completed, events, answers);
    TradesAnswered(arena, env);
    var effect := EffectOf(CyclePlan(arena.live, env, risk), process.world.risk);
    TradeIsFlat(arena, env, risk, effect);
    TradeEnds(arena, env, risk, effect);
    TickGoesOn(arena, origin, process, moment);
    SendsGrow(process.world.submissions, effect.sent, effect.ending.submitted, env.day);
  }

  lemma UnderwayIsFlat(arena: Arena, origin: Origin, equity: i64, process: Process, completed: nat,
                       events: nat, answers: nat)
    requires Underway(arena, origin, equity, process, completed, events, answers)
    ensures Flat(equity, process.phase.risk)
    ensures process.phase.risk.ordersToday <= arena.live.rules.maxOrdersDay
  {
  }

  lemma TradesAnswered(arena: Arena, env: CycleEnv)
    requires Trades(arena, env)
    ensures Answered(arena, env) && env.account.Some? && env.reconcile.at.Some?
  {
    hide ValidAccount, MarketView.Usable, Verdict, Askable;
  }

  // ---------------------------------------------------------------- restarts

  lemma InitializeEffect(arena: Arena, started: bool, contents: StartContents, held: Option<LiveRiskState>)
    ensures var effect := EffectOf(InitializePlan(arena, started, contents), held);
            && effect.ending == Prepared && effect.stored == held && effect.sent == []
            && effect.events <= 3
  {
    var done := End(Prepared, UNLOADED);
    var paused := Then(Note(None, RunPaused, contents.paused), done);
    var handed := Then(Note(None, HandoffSnapshot, contents.handoff), paused);
    hide EffectOf;
    EffectOfEnd(Prepared, UNLOADED, held);
    EffectOfNote(FlushFirst, done, held);
    EffectOfNote(paused.act, done, held);
    EffectOfNote(handed.act, paused, held);
    EffectOfNote(Note(None, RunStarted, contents.started), if arena.handoff then handed else paused,
                 held);
  }

  lemma StepInitialized(arena: Arena, origin: Origin, world: World, op: Op)
    requires arena.Expected().Ok? && op.Initialize? && op.now < arena.span.endsAt && op.cut.None?
    requires var plan := InitializePlan(arena, Own(origin, world) != [], op.contents);
             var (next, finish) := Perform(origin, world, plan);
             finish.Ended? && Cycles(Own(origin, next)) <= arena.Expected().value
    ensures var plan := InitializePlan(arena, Own(origin, world) != [], op.contents);
            var next := Perform(origin, world, plan).0;
            Step(arena, origin, Process(world, Down), op)
            == Process(next, ChainReady(Cycles(Own(origin, next))))
  {
    hide Perform, InitializePlan, Own, Cycles, ExpectedCycleCount;
  }

  /** Starting or flushing the chain leaves everything else as it was. */
  lemma Initialized(arena: Arena, origin: Origin, equity: i64, world: World, op: Op, completed: nat,
                    events: nat, answers: nat)
    requires arena.Expected().Ok? && op.Initialize? && op.now < arena.span.endsAt && op.cut.None?
    requires Kept(arena, origin, equity, world, completed, events, answers)
    requires completed <= arena.Expected().value && 6 <= answers && events + 3 <= I64_MAX
    ensures var next := Step(arena, origin, Process(world, Down), op);
            && next.phase == ChainReady(completed)
            && next.world.risk == world.risk && next.world.submissions == world.submissions
            && Kept(arena, origin, equity, next.world, completed, events + 3, answers - 6)
  {
    hide Step, Perform, InitializePlan, Own, ExpectedCycleCount, EndingOf, RiskOf, StoredBy, EventsOf,
         Sendings, PlanCycles, Able, Cycles, Flat;
    var started := Own(origin, world) != [];
    var plan := InitializePlan(arena, started, op.contents);
    InitializeEffect(arena, started, op.contents, world.risk);
    InitializeCountsNothing(arena, started, op.contents);
    PlanKeepsRun(arena, origin, equity, world, plan, completed, events, answers);
    var used := EventsOf(plan);
    StepInitialized(arena, origin, world, op);
    KeptWithLess(arena, origin, equity, Perform(origin, world, plan).0, completed, events + used,
                 answers - 2 * used, events + 3, answers - 6);
  }

  /** The count a session on the day starts from. */
  function HeldCount(held: Option<LiveRiskState>, day: int): u16 {
    if held.Some? then CountOn(held.value, day) else 0
  }

  lemma StepRecovered(arena: Arena, origin: Origin, process: Process, op: Op)
    requires arena.Expected().Ok? && op.Recover? && op.cut.None? && process.phase.ChainReady?
    requires var plan := RecoverPlan(arena, process.world.risk, op.first, op.env, op.day);
             Succeeded(Perform(origin, process.world, plan).1)
    ensures var plan := RecoverPlan(arena, process.world.risk, op.first, op.env, op.day);
            var (next, finish) := Perform(origin, process.world, plan);
            Step(arena, origin, process, op)
            == Process(next, StateReady(process.phase.completed, finish.risk))
  {
    hide Perform, RecoverPlan, ExpectedCycleCount;
  }

  lemma RecoverEffect(arena: Arena, equity: i64, held: Option<LiveRiskState>, first: FirstState,
                      env: ReconcileEnv, day: int)
    requires Starts(arena, equity, first) && Steady(arena, equity, env)
    requires held.Some? ==> Flat(equity, held.value)
    ensures var risk := FlatRisk(equity, day, HeldCount(held, day), env.at.value);
            EffectOf(RecoverPlan(arena, held, first, env, day), held)
            == Effect(Completed(false), risk, Some(risk), [], 4)
  {
    hide ReconcilePlan, EffectOf, ValidAccount, ValidInitialAccount, Steady;
    if held.Some? {
      ReconcileEffect(arena, equity, env, None, day, held.value, false, held);
    } else {
      var stored := FirstRisk(first);
      ReconcileEffect(arena, equity, env, None, day, stored, false, Some(stored));
      EffectOfStore(stored, ReconcilePlan(arena.live.isolatedLeverage, None, env, day, stored, false),
                    held);
    }
  }

  /** Recovering dates the risk state to the day the clock shows: another day restarts the count. */
  lemma Recovered(arena: Arena, origin: Origin, equity: i64, process: Process, op: Op, events: nat,
                  answers: nat)
    requires arena.Expected().Ok? && process.phase.ChainReady? && op.Recover? && op.cut.None?
    requires Starts(arena, equity, op.first) && Steady(arena, equity, op.env)
    requires Kept(arena, origin, equity, process.world, process.phase.completed, events, answers)
    requires 8 <= answers && events + 4 <= I64_MAX
    ensures var next := Step(arena, origin, process, op);
            var risk := FlatRisk(equity, op.day, HeldCount(process.world.risk, op.day), op.env.at.value);
            && next.phase == StateReady(process.phase.completed, risk)
            && next.world.risk == Some(risk)
            && next.world.submissions == process.world.submissions
            && Kept(arena, origin, equity, next.world, process.phase.completed, events + 4, answers - 8)
  {
    hide Step, Perform, RecoverPlan, ExpectedCycleCount, EndingOf, RiskOf, StoredBy, EventsOf, Sendings,
         PlanCycles, Able, Cycles, Own, Starts, Steady;
    var world := process.world;
    var plan := RecoverPlan(arena, world.risk, op.first, op.env, op.day);
    RecoverEffect(arena, equity, world.risk, op.first, op.env, op.day);
    RecoverCountsNothing(arena, world.risk, op.first, op.env, op.day);
    PlanKeepsRun(arena, origin, equity, world, plan, process.phase.completed, events, answers);
    StepRecovered(arena, origin, process, op);
  }

  /** Catching up appends one event for each boundary missed. */
  lemma {:induction false} CatchUpEffect(arena: Arena, completed: nat, due: nat,
                                         missing: nat -> Missing, risk: LiveRiskState,
                                         held: Option<LiveRiskState>)
    requires arena.Expected().Ok? && due <= arena.Expected().value
    ensures var plan := CatchUpPlan(arena, completed, due, missing, risk, End(Completed(false), risk));
            EffectOf(plan, held)
            == Effect(Completed(false), risk, held, [], Max(due - completed, 0))
    decreases due - completed
  {
    hide ExpectedCycleCount, ScheduledCycleAt, EffectOf;
    var done := End(Completed(false), risk);
    if completed < due {
      CatchUpEffect(arena, completed + 1, due, missing, risk, held);
      EveryCycleFits(arena.span, arena.cooldown, completed);
      var plan := CatchUpPlan(arena, completed, due, missing, risk, done);
      EffectOfNote(plan.act, plan.rest, held);
    } else {
      EffectOfEnd(Completed(false), risk, held);
    }
  }

  lemma StepCaughtUp(arena: Arena, origin: Origin, process: Process, op: Op)
    requires arena.Expected().Ok? && process.phase.StateReady? && op.CatchUp? && op.cut.None?
    requires !op.resume
    requires Max(process.phase.completed, Due(arena, op.now)) < arena.Expected().value
    requires var risk := process.phase.risk;
             var plan := CatchUpPlan(arena, process.phase.completed, Due(arena, op.now), op.missing,
                                     risk, End(Completed(false), risk));
             Succeeded(Perform(origin, process.world, plan).1)
    ensures var risk := process.phase.risk;
            var plan := CatchUpPlan(arena, process.phase.completed, Due(arena, op.now), op.missing,
                                    risk, End(Completed(false), risk));
            var (next, finish) := Perform(origin, process.world, plan);
            Step(arena, origin, process, op)
            == Process(next, Running(Max(process.phase.completed, Due(arena, op.now)), finish.risk))
  {
    hide Perform, CatchUpPlan, ExpectedCycleCount, DueCycleCount;
    DueWithinSchedule(arena, op.now);
  }

  lemma CaughtUp(arena: Arena, origin: Origin, equity: i64, process: Process, op: Op, missed: nat,
                 events: nat, answers: nat)
    requires arena.Expected().Ok? && process.phase.StateReady? && op.CatchUp? && op.cut.None?
    requires !op.resume && process.world.risk == Some(process.phase.risk)
    requires process.phase.completed + missed == Max(process.phase.completed, Due(arena, op.now))
    requires process.phase.completed + missed < arena.Expected().value
    requires Kept(arena, origin, equity, process.world, process.phase.completed, events, answers)
    requires events + missed <= I64_MAX && 2 * missed <= answers
    ensures var next := Step(arena, origin, process, op);
            && Underway(arena, origin, equity, next, process.phase.completed + missed, events + missed,
                        answers - 2 * missed)
            && next.phase.risk == process.phase.risk
            && next.world.submissions == process.world.submissions
  {
    hide Step, Perform, CatchUpPlan, ExpectedCycleCount, DueCycleCount, EndingOf, RiskOf, StoredBy,
         EventsOf, Sendings, PlanCycles, Able, Cycles, Own;
    var completed, risk, due := process.phase.completed, process.phase.risk, Due(arena, op.now);
    var done := End(Completed(false), risk);
    var plan := CatchUpPlan(arena, completed, due, op.missing, risk, done);
    DueWithinSchedule(arena, op.now);
    CatchUpEffect(arena, completed, due, op.missing, risk, process.world.risk);
    CatchUpCounts(arena, completed, due, op.missing, risk, done);
    EndCountsNothing(Completed(false), risk);
    PlanKeepsRun(arena, origin, equity, process.world, plan, completed, events, answers);
    StepCaughtUp(arena, origin, process, op);
  }

  lemma EndCountsNothing(ending: Ending, risk: LiveRiskState)
    ensures PlanCycles(End(ending, risk)) == 0
  {
  }

  lemma AfterFour(arena: Arena, origin: Origin, start: Process, ops: seq<Op>)
    requires |ops| == 4
    ensures AfterOps(arena, origin, start, ops)
            == Step(arena, origin,
                    Step(arena, origin,
                         Step(arena, origin, Step(arena, origin, start, ops[0]), ops[1]), ops[2]),
                    ops[3])
  {
    hide Step;
    assert ops[..3][..2] == ops[..2] && ops[..2][..1] == ops[..1] && ops[..1][..0] == [];
    assert AfterOps(arena, origin, start, ops[..1]) == Step(arena, origin, start, ops[0]);
    assert AfterOps(arena, origin, start, ops[..2])
           == Step(arena, origin, AfterOps(arena, origin, start, ops[..1]), ops[1]);
    assert AfterOps(arena, origin, start, ops[..3])
           == Step(arena, origin, AfterOps(arena, origin, start, ops[..2]), ops[2]);
  }

  lemma Dies(arena: Arena, origin: Origin, process: Process)
    requires arena.Expected().Ok? && !process.phase.Over?
    ensures Step(arena, origin, process, Die) == Process(process.world, Down)
  {
    hide ExpectedCycleCount;
  }

  /** A session that dies and starts again goes on, on the day the clock shows. */
  lemma RestartGoesOn(arena: Arena, origin: Origin, equity: i64, process: Process, moment: Moment,
                      completed: nat, missed: nat, events: nat, answers: nat)
    requires arena.Expected().Ok? && moment.Restart? && moment.at < arena.span.endsAt
    requires Starts(arena, equity, moment.first) && Steady(arena, equity, moment.recovery)
    requires !process.phase.Over?
    requires Kept(arena, origin, equity, process.world, completed, events, answers)
    requires completed + missed == Max(completed, Due(arena, moment.at)) < arena.Expected().value
    requires events + 7 + missed <= I64_MAX && 14 + 2 * missed <= answers
    ensures var next := AfterOps(arena, origin, process, moment.Ops());
            && Underway(arena, origin, equity, next, completed + missed, events + 7 + missed,
                        answers - 14 - 2 * missed)
            && next.phase.risk.tradingDay == moment.day
            && next.phase.risk.ordersToday == HeldCount(process.world.risk, moment.day)
            && next.world.submissions == process.world.submissions
  {
    hide Step, Kept, ExpectedCycleCount, AfterOps, Starts, Steady, Due, HeldCount;
    var ops := moment.Ops();
    AfterFour(arena, origin, process, ops);
    Dies(arena, origin, process);
    Initialized(arena, origin, equity, process.world, ops[1], completed, events, answers);
    var one := Step(arena, origin, Process(process.world, Down), ops[1]);
    Recovered(arena, origin, equity, one, ops[2], events + 3, answers - 6);
    var two := Step(arena, origin, one, ops[2]);
    CaughtUp(arena, origin, equity, two, ops[3], missed, events + 7, answers - 14);
  }

  // ---------------------------------------------------------------- the bound is attained

  /** The run and the watch agree: what was sent on the watched day is all its visits can account
      for. */
  ghost predicate Matches(arena: Arena, origin: Origin, equity: i64, process: Process,
                          moments: seq<Moment>, watch: Watch, answers: nat)
  {
    var cap, risk := arena.live.rules.maxOrdersDay, process.world.risk;
    && 2 * EventBound(arena, moments) <= answers
    && Kept(arena, origin, equity, process.world, CyclesBy(arena, moments), EventBound(arena, moments),
            answers - 2 * EventBound(arena, moments))
    && Sends(process.world.submissions, watch.day) == Reach(watch, cap)
    && (if moments == [] then process.phase.Down? && risk.None? && watch.now.None?
        else && risk.Some? && process.phase == Running(CyclesBy(arena, moments), risk.value)
             && watch.now == Some(risk.value.tradingDay)
             && (watch.Visiting() ==> risk.value.ordersToday == Min(cap, watch.ticks)))
  }

  lemma AfterConcat(arena: Arena, origin: Origin, start: Process, ops: seq<Op>, more: seq<Op>)
    ensures AfterOps(arena, origin, start, ops + more)
            == AfterOps(arena, origin, AfterOps(arena, origin, start, ops), more)
  {
    hide Step;
    if more == [] {
      assert ops + more == ops;
    } else {
      var n := |more| - 1;
      AfterConcat(arena, origin, start, ops, more[..n]);
      assert (ops + more)[..|ops + more| - 1] == ops + more[..n];
    }
  }

  lemma AfterOne(arena: Arena, origin: Origin, start: Process, op: Op)
    ensures AfterOps(arena, origin, start, [op]) == Step(arena, origin, start, op)
  {
    hide Step;
    assert [op][..0] == [];
  }

  lemma RestartMatches(arena: Arena, origin: Origin, equity: i64, process: Process,
                       moments: seq<Moment>, watch: Watch, answers: nat)
    requires arena.Expected().Ok? && moments != [] && moments[|moments| - 1].Restart?
    requires Feasible(arena, equity, moments)
    requires EventBound(arena, moments) <= I64_MAX && 2 * EventBound(arena, moments) <= answers
    requires Matches(arena, origin, equity, process, moments[..|moments| - 1], watch, answers)
    ensures var n := |moments| - 1;
            Matches(arena, origin, equity, AfterOps(arena, origin, process, moments[n].Ops()), moments,
                    WatchOn(watch, moments[n].Shown(), arena.live.rules.maxOrdersDay), answers)
  {
    hide Trades, Starts, Steady, ExpectedCycleCount, AfterOps, Moment.Ops, Due, Kept, Sends;
    var n := |moments| - 1;
    var earlier, moment := moments[..n], moments[n];
    var completed, total := CyclesBy(arena, earlier), CyclesBy(arena, moments);
    var missed := total - completed;
    var events, left := EventBound(arena, earlier), answers - 2 * EventBound(arena, earlier);
    RestartGoesOn(arena, origin, equity, process, moment, completed, missed, events, left);
    var next := AfterOps(arena, origin, process, moment.Ops());
    KeptWithLess(arena, origin, equity, next.world, total, events + 7 + missed, left - 14 - 2 * missed,
                 EventBound(arena, moments), answers - 2 * EventBound(arena, moments));
  }

  lemma WakeupMatches(arena: Arena, origin: Origin, equity: i64, process: Process, moments: seq<Moment>,
                      watch: Watch, answers: nat)
    requires arena.Expected().Ok? && moments != [] && moments[|moments| - 1].Wakeup?
    requires Feasible(arena, equity, moments)
    requires EventBound(arena, moments) <= I64_MAX && 2 * EventBound(arena, moments) <= answers
    requires Matches(arena, origin, equity, process, moments[..|moments| - 1], watch, answers)
    ensures var n := |moments| - 1;
            Matches(arena, origin, equity, AfterOps(arena, origin, process, moments[n].Ops()), moments,
                    WatchOn(watch, moments[n].Shown(), arena.live.rules.maxOrdersDay), answers)
  {
    hide Trades, Starts, Steady, ExpectedCycleCount, AfterOps, Step, Due, Kept, Sends;
    var n := |moments| - 1;
    var earlier, moment := moments[..n], moments[n];
    var completed, events := CyclesBy(arena, earlier), EventBound(arena, earlier);
    var left := answers - 2 * EventBound(arena, earlier);
    WakeupTrades(arena, origin, equity, process, moment, completed, events, left);
    AfterOne(arena, origin, process, moment.Ops()[0]);
    assert moment.Ops() == [moment.Ops()[0]];
    var next := AfterOps(arena, origin, process, moment.Ops());
    KeptWithLess(arena, origin, equity, next.world, completed + 1, events + 13, left - 26,
                 EventBound(arena, moments), answers - 2 * EventBound(arena, moments));
  }

  /** A run in which nothing but the clock changes sends on every day as many orders as the visits to
      the day can account for, whatever the clock shows at its restarts and wake-ups. */
  lemma {:induction false} TradingRun(arena: Arena, origin: Origin, equity: i64, moments: seq<Moment>,
                                      day: int, answers: nat)
    requires arena.Expected().Ok? && Feasible(arena, equity, moments)
    requires Authentic(origin.crypto, origin.identity) && TellsIds(origin.crypto)
    requires EventBound(arena, moments) <= I64_MAX && 2 * EventBound(arena, moments) <= answers
    ensures Matches(arena, origin, equity,
                    AfterOps(arena, origin, Process(Start(answers), Down), RunOf(moments)), moments,
                    WatchAfter(Shown(moments), day, arena.live.rules.maxOrdersDay), answers)
  {
    hide Authentic, TellsIds, ExpectedCycleCount, Kept, Step, Moment.Ops, Matches, Trades, Starts, Steady;
    var cap, start := arena.live.rules.maxOrdersDay, Process(Start(answers), Down);
    if moments == [] {
      StartMatches(arena, origin, equity, day, answers);
    } else {
      var n := |moments| - 1;
      var earlier := moments[..n];
      EventsGrow(arena, moments);
      TradingRun(arena, origin, equity, earlier, day, answers);
      var process := AfterOps(arena, origin, start, RunOf(earlier));
      AfterConcat(arena, origin, start, RunOf(earlier), moments[n].Ops());
      assert Shown(moments)[..|Shown(moments)| - 1] == Shown(earlier);
      var watch := WatchAfter(Shown(earlier), day, cap);
      if moments[n].Restart? {
        RestartMatches(arena, origin, equity, process, moments, watch, answers);
      } else {
        WakeupMatches(arena, origin, equity, process, moments, watch, answers);
      }
    }
  }

  lemma EventsGrow(arena: Arena, moments: seq<Moment>)
    requires moments != []
    ensures EventBound(arena, moments[..|moments| - 1]) <= EventBound(arena, moments)
  {
    hide Due;
  }

  lemma StartMatches(arena: Arena, origin: Origin, equity: i64, day: int, answers: nat)
    requires Authentic(origin.crypto, origin.identity) && TellsIds(origin.crypto)
    ensures Matches(arena, origin, equity, Process(Start(answers), Down), [], Watch(day, None, 0, 0),
                    answers)
  {
    hide Settled, Authentic, TellsIds, Willing;
    StartIsFresh(origin, answers);
    assert Own(origin, Start(answers)) == [];
    assert Sends([], day) == 0;
  }

  // ---------------------------------------------------------------- coherent clocks

  const DAY_MILLIS: int := 86_400_000

  /** The calendar day of nanoseconds since the epoch. */
  function DayAt(at: int): int {
    at / (DAY_MILLIS * 1_000_000)
  }

  /** Milliseconds read from the clock, if there are any, lie on the day. */
  predicate OnDay(millis: Option<u64>, day: int) {
    millis.Some? ==> millis.value / DAY_MILLIS == day
  }

  predicate SignedOn(contents: seq<Content>, day: int) {
    forall i :: 0 <= i < |contents| ==> DayAt(contents[i].occurredAt) == day
  }

  predicate ReconciledOn(env: ReconcileEnv, day: int) {
    var contents := env.contents;
    && OnDay(env.at, day)
    && SignedOn([contents.fills, contents.funding, contents.reconciliation, contents.portfolio], day)
  }

  predicate CycledOn(env: CycleEnv, day: int) {
    var dispatch, contents := env.dispatch, env.contents;
    && env.day == day && OnDay(env.nowMs, day) && OnDay(dispatch.nowMs, day)
    && (dispatch.view.Some? ==> OnDay(Some(dispatch.view.value.observedAtMs), day))
    && (env.decision.Decided? ==> SignedOn(env.decision.receipts, day))
    && SignedOn([contents.started, contents.book, contents.candles, contents.portfolio,
                 contents.failure, contents.proposal, contents.dispatchBook, contents.outcome,
                 contents.submission, contents.acknowledgement], day)
    && ReconciledOn(env.reconcile, day)
  }

  /** Everything one stage reads from the clock, and every time it signs an event with, lies on one
      day. */
  ghost predicate Coherent(op: Op) {
    match op
    case Initialize(now, contents, _) =>
      SignedOn([contents.started, contents.handoff, contents.paused], DayAt(now))
    case Recover(first, env, day, _) =>
      first.day == day && OnDay(first.at, day) && ReconciledOn(env, day)
    case CatchUp(now, missing, _, content, _) =>
      && SignedOn([content], DayAt(now))
      && forall index: nat :: DayAt(missing(index).occurredAt) == DayAt(now)
    case CycleTick(wake, _) =>
      && SignedOn([wake.content], DayAt(wake.now))
      && DayAt(wake.missing.occurredAt) == DayAt(wake.now)
      && (wake.running ==> CycledOn(wake.env, DayAt(wake.now)))
    case _ => true
  }

  ghost predicate AllCoherent(ops: seq<Op>) {
    forall i :: 0 <= i < |ops| ==> Coherent(ops[i])
  }

  ghost predicate CoherentMoments(moments: seq<Moment>) {
    forall i :: 0 <= i < |moments| ==>
      DayAt(moments[i].at) == moments[i].Shown().day && AllCoherent(moments[i].Ops())
  }

  lemma {:induction false} RunIsCoherent(moments: seq<Moment>)
    requires CoherentMoments(moments)
    ensures AllCoherent(RunOf(moments))
  {
    hide Coherent, DayAt, Moment.Ops;
    if moments != [] {
      RunIsCoherent(moments[..|moments| - 1]);
    }
  }

  /** The clocks that keep the daily cap, exactly. For an arena that can trade under it, every run that
      reads the clock keeps the cap of a day if and only if the visits to the day cannot account for
      more orders than the daily maximum: a clock that never comes back to a day it has left keeps it,
      and one that comes back, in a restart or a wake-up, and wakes enough cycles in both visits does
      not. */
  lemma CapDependsOnClock(arena: Arena, origin: Origin, equity: i64, moments: seq<Moment>, day: int)
    requires arena.Expected().Ok? && Feasible(arena, equity, moments) && CoherentMoments(moments)
    requires Authentic(origin.crypto, origin.identity) && TellsIds(origin.crypto)
    requires EventBound(arena, moments) <= I64_MAX
    ensures var cap := arena.live.rules.maxOrdersDay;
            (forall world, ops ::
               Fresh(origin, world) && AllCoherent(ops) && Readings(ops) == Shown(moments) ==>
                 Sends(AfterOps(arena, origin, Process(world, Down), ops).world.submissions, day) <= cap)
            <==> Reach(WatchAfter(Shown(moments), day, cap), cap) <= cap
  {
    hide ExpectedCycleCount, Fresh, Readings, AfterOps, Sends, Reach, WatchAfter, Shown, Start, RunOf,
         Authentic, TellsIds, Feasible, CoherentMoments, AllCoherent, EventBound, Kept, CyclesBy;
    var cap, answers := arena.live.rules.maxOrdersDay, 2 * EventBound(arena, moments);
    var reach := Reach(WatchAfter(Shown(moments), day, cap), cap);
    var world, ops := Start(answers), RunOf(moments);
    StartIsFresh(origin, answers);
    RunReads(moments);
    RunIsCoherent(moments);
    TradingRun(arena, origin, equity, moments, day, answers);
    WatchesDay(Shown(moments), day, cap);
    assert Fresh(origin, world) && AllCoherent(ops) && Readings(ops) == Shown(moments);
    assert Sends(AfterOps(arena, origin, Process(world, Down), ops).world.submissions, day) == reach;
    forall world, ops | Fresh(origin, world) && Readings(ops) == Shown(moments)
      ensures Sends(AfterOps(arena, origin, Process(world, Down), ops).world.submissions, day) <= reach
    {
      ClockBoundsOrders(arena, origin, world, ops, day);
    }
  }

  // ---------------------------------------------------------------- a clock that breaks the cap

  /** Digests that are event numbers, and signatures that always verify. */
  function SampleOrigin(): Origin {
    Origin(Crypto((fields: HashedFields) => fields.eventId, (key, signature, digest) => true),
           Identity(0, (digest: Hash) => 0), 0, 0)
  }

  /** A week of quarter-hour cycles from one o'clock on day 1, for a capital of 1000 USDC, one order
      a day. */
  function SampleArena(): Arena {
    Arena(LiveConfig(CEILING_RULES.(maxOrdersDay := 1), 1_000_000_000, 1),
          Span(90_000 * NANOS, 694_800 * NANOS), 900, false, false)
  }

  const SAMPLE_ACCOUNT: AccountSnapshot := AccountSnapshot(1_000_000_000, 1_000_000_000, map[])

  const SAMPLE_LEVEL: BookLevel := BookLevel("9", "9")

  /** Nine units on either side at nine USDC, at a time of the venue and of this clock. */
  function SampleView(millis: u64): MarketView {
    MarketView(BTC, 5, AssetContext(Some(9_000_000), Some(9_000_000)),
               BookSnapshot(BTC, millis, [SAMPLE_LEVEL], [SAMPLE_LEVEL]), millis)
  }

  const SAMPLE_PROPOSAL: Proposal := Proposal(BTC, Buy, 100, 9_000_000, false)

  function SampleRecovery(millis: u64): ReconcileEnv {
    var content := Content(millis * 1_000_000, 0);
    ReconcileEnv(Some(millis), true, true, Some(SAMPLE_ACCOUNT),
                 ReconcileContents(content, content, content, content))
  }

  /** A cycle at a time at which the clock is right. */
  function SampleCycle(millis: u64): CycleEnv {
    var content, account := Content(millis * 1_000_000, 0), Some(SAMPLE_ACCOUNT);
    CycleEnv(0, millis / DAY_MILLIS, Some(millis), account, true, true,
             Decided([], Some(SAMPLE_PROPOSAL)),
             DispatchEnv(account, Some(millis), Some(SampleView(millis)), true, 0, true),
             SampleRecovery(millis),
             CycleContents(content, content, content, content, content, content, content, content,
                           content, content))
  }

  lemma SamplePrice()
    ensures PriceOf(SAMPLE_LEVEL) == 9_000_000 && QuantityOf(SAMPLE_LEVEL) == 900_000_000
  {
    assert Pow10(6) == 1_000_000 by { Pow10Sum(3, 3); assert Pow10(3) == 1000; }
    assert Pow10(8) == 100_000_000 by { Pow10Sum(6, 2); assert Pow10(2) == 100; }
    assert Decimal.PointIndex("9") == 1;
    assert Decimal.WholePart("9") == "9" && Decimal.FractionPart("9") == "";
    assert Decimal.Value("9") == 9 by {
      assert "9"[..0] == "";
    }
    assert Decimal.Value("") == 0;
    assert DecimalTheorems.Magnitude("9") == 9 by {
      assert Pow10(0) == 1;
    }
    hide Pow10;
    DecimalTheorems.AgentParserIsExact("9", 6, 9_000_000);
    DecimalTheorems.AgentParserIsExact("9", 8, 900_000_000);
  }

  lemma SampleSweep(millis: u64, side: Side)
    ensures var book := SampleView(millis).book;
            && book.HasTop(side) && book.Top(side) == 9_000_000
            && Swept(book.Opposing(side), side, 9_000_000) == 1
            && book.DepthReadable(side) && SampleView(millis).SweptDepth(side) == 81_000_000
            && MarketableLimit(book, side) == Some(9_000_000)
  {
    hide PriceOf, QuantityOf, Swept;
    SamplePrice();
    var levels := SampleView(millis).book.Opposing(side);
    assert levels == [SAMPLE_LEVEL];
    assert Reachable(side, 9_000_000, SAMPLE_LEVEL);
    SweptIs(levels, side, 9_000_000, 1);
    assert Depth(levels, 0) == 0;
    assert Depth(levels, 1) == 81_000_000;
  }

  lemma SampleUsable(millis: u64)
    ensures SampleView(millis).Usable()
    ensures MarketOf(SampleView(millis))
            == MarketState(BTC, 9_000_000, 9_000_000, 0, 0, 81_000_000, 81_000_000, 5, false)
  {
    SampleSweep(millis, Buy);
    SampleSweep(millis, Sell);
    hide PriceOf, QuantityOf, Swept, Depth, MarketableLimit, BookSnapshot.HasTop, BookSnapshot.Top,
         BookSnapshot.DepthReadable, MarketView.SweptDepth;
  }

  function SampleContext(): PolicyContext {
    PolicyContext(SampleArena().live.rules,
                  MarketState(BTC, 9_000_000, 9_000_000, 0, 0, 81_000_000, 81_000_000, 5, false),
                  PortfolioState(1_000_000_000, 1_000_000_000, 1_000_000_000, 1_000_000_000, 0, 0),
                  1_000_000_000, Some(9_000_000), 1)
  }

  lemma SampleApproved()
    ensures EvaluateProposal(SAMPLE_PROPOSAL, SampleContext())
            == Ok(OrderDecision(BTC, Buy, 111_112_000, 9_000_000, 10_000_080, 101, false))
  {
    assert LotStep(5) == 1_000 by { assert Pow10(3) == 1_000; }
  }

  lemma SampleTrades(millis: u64)
    ensures Trades(SampleArena(), SampleCycle(millis))
  {
    SampleUsable(millis);
    SampleSweep(millis, Buy);
    SampleApproved();
    hide EvaluateProposal, MarketOf, MarketView.Usable, MarketableLimit, PriceOf, Swept;
    assert ObservedView(SampleCycle(millis).dispatch) == SampleView(millis);
  }

  lemma SampleSchedule()
    ensures SampleArena().Expected() == Ok(672)
  {
  }

  function SampleRestart(seconds: u32): Moment {
    var day, millis := seconds / 86_400, seconds * 1_000;
    Restart(seconds * NANOS, FirstState(day, Some(millis), Some(SAMPLE_ACCOUNT)), SampleRecovery(millis),
            day)
  }

  function SampleWakeup(seconds: u32): Moment {
    Wakeup(seconds * NANOS, SampleCycle(seconds * 1_000))
  }

  /** The session starts at half past midnight on day 1 and runs the first cycle at one o'clock. Then
      the clock is set back, and a session that starts again reads half past eleven on day 0. When the
      second cycle is due the clock is right again. */
  function SampleMoments(): seq<Moment> {
    FourMoments(88_200, 90_000, 84_600, 91_800)
  }

  lemma SecondsOnDay(seconds: u32)
    ensures DayAt(seconds * NANOS) == DayAt(seconds * 1_000 * 1_000_000) == seconds / 86_400
    ensures OnDay(Some(seconds * 1_000), seconds / 86_400)
  {
    assert seconds * NANOS / (86_400 * NANOS) == seconds / 86_400;
    assert seconds * 1_000 / DAY_MILLIS == seconds / 86_400;
  }

  lemma SampleReconciled(seconds: u32)
    ensures ReconciledOn(SampleRecovery(seconds * 1_000), seconds / 86_400)
  {
    SecondsOnDay(seconds);
    hide DayAt, OnDay;
  }

  lemma SampleCycled(seconds: u32)
    ensures CycledOn(SampleCycle(seconds * 1_000), seconds / 86_400)
  {
    SecondsOnDay(seconds);
    SampleReconciled(seconds);
    assert SampleCycle(seconds * 1_000).day == seconds / 86_400;
    hide DayAt, OnDay, SampleRecovery, ReconciledOn;
  }

  lemma RestartIsCoherent(seconds: u32)
    ensures DayAt(SampleRestart(seconds).at) == SampleRestart(seconds).Shown().day
    ensures AllCoherent(SampleRestart(seconds).Ops())
  {
    SecondsOnDay(seconds);
    SampleReconciled(seconds);
    hide DayAt, OnDay, SampleRecovery, ReconciledOn;
  }

  lemma WakeupIsCoherent(seconds: u32)
    ensures DayAt(SampleWakeup(seconds).at) == SampleWakeup(seconds).Shown().day
    ensures AllCoherent(SampleWakeup(seconds).Ops())
  {
    SecondsOnDay(seconds);
    SampleCycled(seconds);
    assert SampleCycle(seconds * 1_000).day == seconds / 86_400;
    hide DayAt, OnDay, SampleCycle, CycledOn;
  }

  lemma SampleCoherent()
    ensures CoherentMoments(SampleMoments())
  {
    hide DayAt, AllCoherent, SampleRestart, SampleWakeup, Moment.Ops, Moment.Shown;
    RestartIsCoherent(88_200);
    WakeupIsCoherent(90_000);
    RestartIsCoherent(84_600);
    WakeupIsCoherent(91_800);
  }

  lemma SampleStarts(seconds: u32)
    ensures var moment := SampleRestart(seconds);
            && Starts(SampleArena(), 1_000_000_000, moment.first)
            && Steady(SampleArena(), 1_000_000_000, moment.recovery)
  {
  }

  /** Every start is before the arena's, so nothing is missed. */
  lemma SampleDue(seconds: u32)
    requires seconds < 90_000
    ensures Due(SampleArena(), seconds * NANOS) == 0
  {
    SampleSchedule();
    hide ExpectedCycleCount;
  }

  lemma MoreMoments(arena: Arena, moments: seq<Moment>, moment: Moment)
    requires arena.Expected().Ok?
    ensures Shown(moments + [moment]) == Shown(moments) + [moment.Shown()]
    ensures CyclesBy(arena, moments + [moment])
            == if moment.Restart? then Max(CyclesBy(arena, moments), Due(arena, moment.at))
               else CyclesBy(arena, moments) + 1
  {
    hide ExpectedCycleCount, Due;
    assert (moments + [moment])[..|moments|] == moments;
  }

  lemma RestartIsFeasible(arena: Arena, equity: i64, moments: seq<Moment>, moment: Moment)
    requires arena.Expected().Ok? && Feasible(arena, equity, moments) && moment.Restart?
    requires moment.at < arena.span.endsAt && CyclesBy(arena, moments + [moment]) < arena.Expected().value
    requires Starts(arena, equity, moment.first) && Steady(arena, equity, moment.recovery)
    ensures Feasible(arena, equity, moments + [moment])
  {
    hide ExpectedCycleCount, Due, Starts, Steady, CyclesBy;
    assert (moments + [moment])[..|moments|] == moments;
  }

  lemma WakeupIsFeasible(arena: Arena, equity: i64, moments: seq<Moment>, moment: Moment)
    requires arena.Expected().Ok? && Feasible(arena, equity, moments) && moment.Wakeup?
    requires moments != [] && CyclesBy(arena, moments) < arena.Expected().value
    requires moment.at < arena.span.endsAt
    requires Trades(arena, moment.env) && moment.env.account.value.equity == equity
    ensures Feasible(arena, equity, moments + [moment])
  {
    hide ExpectedCycleCount, Trades, CyclesBy;
    assert (moments + [moment])[..|moments|] == moments;
  }

  lemma SampleRestarts(moments: seq<Moment>, seconds: u32)
    requires SampleArena().Expected() == Ok(672) && seconds < 90_000
    requires Feasible(SampleArena(), 1_000_000_000, moments) && CyclesBy(SampleArena(), moments) < 672
    ensures Feasible(SampleArena(), 1_000_000_000, moments + [SampleRestart(seconds)])
    ensures CyclesBy(SampleArena(), moments + [SampleRestart(seconds)]) == CyclesBy(SampleArena(), moments)
  {
    hide ExpectedCycleCount, Due, Starts, Steady, CyclesBy, Feasible, SampleRecovery;
    SampleDue(seconds);
    SampleStarts(seconds);
    MoreMoments(SampleArena(), moments, SampleRestart(seconds));
    RestartIsFeasible(SampleArena(), 1_000_000_000, moments, SampleRestart(seconds));
  }

  lemma SampleWakesUp(moments: seq<Moment>, seconds: u32)
    requires SampleArena().Expected() == Ok(672) && seconds < 694_800
    requires Feasible(SampleArena(), 1_000_000_000, moments) && CyclesBy(SampleArena(), moments) < 672
    requires moments != []
    ensures Feasible(SampleArena(), 1_000_000_000, moments + [SampleWakeup(seconds)])
    ensures CyclesBy(SampleArena(), moments + [SampleWakeup(seconds)])
            == CyclesBy(SampleArena(), moments) + 1
  {
    hide ExpectedCycleCount, Due, CyclesBy, Feasible, Trades, SampleRecovery;
    SampleTrades(seconds * 1_000);
    MoreMoments(SampleArena(), moments, SampleWakeup(seconds));
    WakeupIsFeasible(SampleArena(), 1_000_000_000, moments, SampleWakeup(seconds));
  }

  lemma NothingIsFeasible(arena: Arena, equity: i64)
    requires arena.Expected().Ok?
    ensures Feasible(arena, equity, []) && CyclesBy(arena, []) == 0
  {
    hide ExpectedCycleCount, Trades, Starts, Steady, Due;
  }

  /** A start, a cycle, a restart and a cycle. */
  function FourMoments(a: u32, b: u32, c: u32, d: u32): seq<Moment> {
    [SampleRestart(a), SampleWakeup(b), SampleRestart(c), SampleWakeup(d)]
  }

  lemma FourAreFeasible(a: u32, b: u32, c: u32, d: u32)
    requires SampleArena().Expected() == Ok(672)
    requires a < 90_000 && b < 694_800 && c < 90_000 && d < 694_800
    ensures Feasible(SampleArena(), 1_000_000_000, FourMoments(a, b, c, d))
    ensures EventBound(SampleArena(), FourMoments(a, b, c, d)) == 54
  {
    hide ExpectedCycleCount, CyclesBy, Feasible, SampleRestart, SampleWakeup, Trades;
    var w, x, y, z := SampleRestart(a), SampleWakeup(b), SampleRestart(c), SampleWakeup(d);
    NothingIsFeasible(SampleArena(), 1_000_000_000);
    SampleRestarts([], a);
    assert [] + [w] == [w] && [w] + [x] == [w, x];
    SampleWakesUp([w], b);
    assert [w, x] + [y] == [w, x, y];
    SampleRestarts([w, x], c);
    assert [w, x, y] + [z] == [w, x, y, z];
    SampleWakesUp([w, x, y], d);
  }

  lemma FourAreShown(a: u32, b: u32, c: u32, d: u32)
    requires SampleArena().Expected().Ok?
    ensures Shown(FourMoments(a, b, c, d))
            == [Reading(a / 86_400, 0), Reading(b / 86_400, 1), Reading(c / 86_400, 0),
                Reading(d / 86_400, 1)]
  {
    SecondsShown(a, b);
    SecondsShown(c, d);
    hide ExpectedCycleCount, CyclesBy, SampleRestart, SampleWakeup;
    var w, x, y, z := SampleRestart(a), SampleWakeup(b), SampleRestart(c), SampleWakeup(d);
    MoreMoments(SampleArena(), [], w);
    MoreMoments(SampleArena(), [w], x);
    MoreMoments(SampleArena(), [w, x], y);
    MoreMoments(SampleArena(), [w, x, y], z);
    assert [] + [w] == [w] && [w] + [x] == [w, x] && [w, x] + [y] == [w, x, y];
    assert [w, x, y] + [z] == [w, x, y, z];
  }

  lemma SecondsShown(a: u32, b: u32)
    ensures SampleRestart(a).Shown() == Reading(a / 86_400, 0)
    ensures SampleWakeup(b).Shown() == Reading(b / 86_400, 1)
  {
    assert b * 1_000 / DAY_MILLIS == b / 86_400;
  }

  lemma BackAndForthReaches()
    ensures var readings := [Reading(1, 0), Reading(1, 1), Reading(0, 0), Reading(1, 1)];
            Reach(WatchAfter(readings, 1, 1), 1) == 2
  {
    var a, b, c, d := Reading(1, 0), Reading(1, 1), Reading(0, 0), Reading(1, 1);
    assert [a, b, c, d][..3] == [a, b, c] && [a, b, c][..2] == [a, b];
    assert [a, b][..1] == [a] && [a][..0] == [];
    assert WatchAfter([a], 1, 1) == Watch(1, Some(1), 0, 0);
    assert WatchAfter([a, b], 1, 1) == Watch(1, Some(1), 0, 1);
    assert WatchAfter([a, b, c], 1, 1) == Watch(1, Some(0), 1, 0);
    assert WatchAfter([a, b, c, d], 1, 1) == Watch(1, Some(1), 1, 1);
  }

  lemma SampleIsAuthentic()
    ensures Authentic(SampleOrigin().crypto, SampleOrigin().identity) && TellsIds(SampleOrigin().crypto)
  {
  }

  lemma FourSendTwice(a: u32, b: u32, c: u32, d: u32)
    requires a < 90_000 && b < 694_800 && c < 90_000 && d < 694_800
    requires a / 86_400 == b / 86_400 == d / 86_400 == 1 && c / 86_400 == 0
    ensures Sends(AfterOps(SampleArena(), SampleOrigin(), Process(Start(108), Down),
                           RunOf(FourMoments(a, b, c, d))).world.submissions, 1) == 2
  {
    SampleSchedule();
    SampleIsAuthentic();
    hide AfterOps, Sends, RunOf, Start, ExpectedCycleCount, Kept, Feasible, EventBound, CyclesBy, Reach,
         WatchAfter, Shown, FourMoments, Authentic, TellsIds;
    var moments := FourMoments(a, b, c, d);
    FourAreFeasible(a, b, c, d);
    FourAreShown(a, b, c, d);
    BackAndForthReaches();
    WatchesDay(Shown(moments), 1, 1);
    TradingRun(SampleArena(), SampleOrigin(), 1_000_000_000, moments, 1, 108);
  }

  /** With at most one order a day, a run of two cycles sends two orders on day 1, because a restart
      between them read day 0. */
  lemma ComingBackBreaksTheCap()
    ensures var arena, origin := SampleArena(), SampleOrigin();
            && Fresh(origin, Start(108)) && CoherentMoments(SampleMoments())
            && arena.live.rules.maxOrdersDay == 1
            && Sends(AfterOps(arena, origin, Process(Start(108), Down), RunOf(SampleMoments()))
                     .world.submissions, 1) == 2
  {
    SampleCoherent();
    StartIsFresh(SampleOrigin(), 108);
    hide Fresh, CoherentMoments, Sends, AfterOps, RunOf, Start, FourMoments;
    FourSendTwice(88_200, 90_000, 84_600, 91_800);
  }
}
