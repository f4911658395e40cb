/** One live trading cycle and one reconciliation, as the durable acts they perform in order. What
    the venue, the model, the clock and the execution gate answer is the environment. */
module Live {
  import opened Arithmetic
  import opened Policy
  import opened Book
  import opened Market
  import opened Events
  import opened Journal
  import opened Writer

  // ---------------------------------------------------------------- the environment

  type Amount = x: int | 0 <= x <= 0x7FFF_FFFF_FFFF_FFFF

  datatype PositionSnapshot = PositionSnapshot(
    quantity: i64,
    notional: Amount,
    isolated: bool,
    leverage: u32)

  datatype AccountSnapshot = AccountSnapshot(
    equity: i64,
    withdrawable: i64,
    positions: map<Asset, PositionSnapshot>)

  /** When an event is signed and what its payload says. */
  datatype Content = Content(occurredAt: int, data: nat)

  /** The events of one reconciliation, in order. */
  datatype ReconcileContents = ReconcileContents(
    fills: Content,
    funding: Content,
    reconciliation: Content,
    portfolio: Content)

  /** The events of one cycle besides its receipts and its reconciliation. */
  datatype CycleContents = CycleContents(
    started: Content,
    book: Content,
    candles: Content,
    portfolio: Content,
    failure: Content,
    proposal: Content,
    dispatchBook: Content,
    outcome: Content,
    submission: Content,
    acknowledgement: Content)

  datatype LiveConfig = LiveConfig(rules: RiskRules, startingCapital: u64, isolatedLeverage: u8)

  /** Answers met while reconciling; `None` and `false` are failed calls. */
  datatype ReconcileEnv = ReconcileEnv(
    at: Option<u64>,
    fills: bool,
    funding: bool,
    account: Option<AccountSnapshot>,
    contents: ReconcileContents)

  datatype Decision = Failed | Decided(receipts: seq<Content>, proposal: Option<Proposal>)

  datatype DispatchEnv = DispatchEnv(
    account: Option<AccountSnapshot>,
    nowMs: Option<u64>,
    view: Option<MarketView>,
    permitted: bool,
    clientOrderId: nat,
    accepted: bool)

  datatype CycleEnv = CycleEnv(
    cycleId: nat,
    day: int,
    nowMs: Option<u64>,
    account: Option<AccountSnapshot>,
    snapshots: bool,
    candles: bool,
    decision: Decision,
    dispatch: DispatchEnv,
    reconcile: ReconcileEnv,
    contents: CycleContents)

  // ---------------------------------------------------------------- small rules

  /** A new trading day restarts the day's equity and order count; the peak only rises. */
  function UpdateRiskState(risk: LiveRiskState, account: AccountSnapshot, today: int)
    : (later: LiveRiskState)
    ensures risk.peakEquity <= later.peakEquity && account.equity <= later.peakEquity
    ensures later.peakEquity == risk.peakEquity || later.peakEquity == account.equity
  {
    var dated :=
      if risk.tradingDay != today then
        risk.(tradingDay := today, dayStartEquity := account.equity, ordersToday := 0)
      else risk;
    dated.(peakEquity := Max(dated.peakEquity, account.equity))
  }

  predicate ValidAccount(account: AccountSnapshot, isolatedLeverage: u8) {
    && account.equity > 0
    && isolatedLeverage != 0
    && forall symbol :: symbol in account.positions ==>
         && account.positions[symbol].isolated
         && account.positions[symbol].leverage == isolatedLeverage
  }

  function SignedNotional(account: AccountSnapshot, symbol: Asset): i64 {
    if symbol !in account.positions then 0
    else
      var position := account.positions[symbol];
      if position.quantity < 0 then 0 - position.notional else position.notional
  }

  /** The limit the order is normalised to: the deepest displayed price within the slippage. */
  function MarketableLimit(book: BookSnapshot, side: Side): Option<i64> {
    if book.HasTop(side) && StopReadable(book.Opposing(side), side, book.Top(side)) then
      SweptReaches(book.Opposing(side), side, book.Top(side));
      TopIsSwept(book, side);
      Some(PriceOf(book.Opposing(side)[Swept(book.Opposing(side), side, book.Top(side)) - 1]))
    else None
  }

  lemma TopIsSwept(book: BookSnapshot, side: Side)
    requires book.HasTop(side)
    ensures Swept(book.Opposing(side), side, book.Top(side)) > 0
  {
    hide PriceOf;
    SweptCovers(book.Opposing(side), side, book.Top(side), 1);
  }

  // ---------------------------------------------------------------- durable acts

  /** What an order was decided on: the account and market refreshed at dispatch, the model's proposal
      and the risk state in memory. */
  datatype Basis = Basis(
    account: AccountSnapshot,
    view: MarketView,
    proposal: Proposal,
    risk: LiveRiskState)

  datatype Submission = Submission(day: int, clientOrderId: nat, order: OrderDecision, basis: Basis)

  /** Everything that survives a crash, with two history variables: the start of the first stored
      reconciliation window, and the orders sent to the venue by the trading day of their cycle. */
  datatype World = World(
    wire: Wire,
    risk: Option<LiveRiskState>,
    mark: Option<u64>,
    submissions: seq<Submission>)

  datatype Act =
    | EmitEvent(draft: Draft)
    | FlushFirst
    | StoreRisk(state: LiveRiskState)
    | SubmitIoc(submission: Submission)

  /** The stored risk state of a run. */
  function StoredRisk(secrets: map<SecretName, Secret>, runId: nat): Option<LiveRiskState> {
    if RiskStateOf(runId) in secrets && secrets[RiskStateOf(runId)].RiskState? then
      Some(secrets[RiskStateOf(runId)].state)
    else None
  }

  function Marked(mark: Option<u64>, state: LiveRiskState): Option<u64> {
    if mark.None? then Some(state.lastReconciliationMs) else mark
  }

  function DoAct(origin: Origin, world: World, act: Act): (World, Outcome) {
    match act
    case EmitEvent(draft) =>
      var (wire, outcome) := Append(origin, world.wire, draft);
      (world.(wire := wire), outcome)
    case FlushFirst =>
      var (wire, outcome) := Flush(origin, world.wire);
      (world.(wire := wire), outcome)
    case StoreRisk(state) => (world.(risk := Some(state), mark := Marked(world.mark, state)), Done)
    case SubmitIoc(submission) =>
      (world.(submissions := world.submissions + [submission]), Done)
  }

  datatype Ending =
    | Prepared
    | Completed(submitted: bool)
    | ModelFailed
    | VenueFailed
    | PolicyViolated
    | RiskStateInvalid
    | ScheduleInvalid

  /** The acts a call will perform in order, and how it ends with which risk state in memory. */
  datatype Plan = End(ending: Ending, risk: LiveRiskState) | Then(act: Act, rest: Plan)

  datatype Finish = Ended(ending: Ending, risk: LiveRiskState) | Stopped(outcome: Outcome)

  /** The acts in order until one of them fails. */
  function Perform(origin: Origin, world: World, plan: Plan): (World, Finish)
    decreases plan
  {
    match plan
    case End(ending, risk) => (world, Ended(ending, risk))
    case Then(act, rest) =>
      var (next, outcome) := DoAct(origin, world, act);
      if outcome != Done then (next, Stopped(outcome)) else Perform(origin, next, rest)
  }

  /** The first `count` acts of a plan, or fewer if one fails: what a crash in between leaves. */
  function PerformFirst(origin: Origin, world: World, plan: Plan, count: nat): World
    decreases plan
  {
    if count == 0 || plan.End? then world
    else
      var (next, outcome) := DoAct(origin, world, plan.act);
      if outcome != Done then next else PerformFirst(origin, next, plan.rest, count - 1)
  }

  /** The stored events of the run. */
  function Own(origin: Origin, world: World): seq<Row> {
    RunRows(world.wire.rows, origin.runId)
  }

  /** Cycles the journal accounts for: started or missed. */
  function Cycles(own: seq<Row>): nat {
    CountKind(own, CycleStarted) + CountKind(own, MissedCycle)
  }

  // ---------------------------------------------------------------- plans

  function Note(cycleId: Option<nat>, kind: Kind, content: Content): Act {
    EmitEvent(Draft(cycleId, kind, content.occurredAt, Opaque(content.data)))
  }

  function WindowOf(cycleId: Option<nat>, kind: Kind, content: Content, start: u64, end: u64): Act {
    EmitEvent(Draft(cycleId, kind, content.occurredAt, Window(start, end)))
  }

  function AfterReconcile(risk: LiveRiskState, env: ReconcileEnv, day: int): LiveRiskState
    requires env.at.Some? && env.account.Some?
  {
    UpdateRiskState(risk.(lastReconciliationMs := env.at.value), env.account.value, day)
  }

  /** Fills and funding since the last reconciliation, the account, then the new risk state. */
  function ReconcilePlan(leverage: u8, cycleId: Option<nat>, env: ReconcileEnv, day: int,
                         risk: LiveRiskState, submitted: bool): Plan
  {
    if env.at.None? then End(RiskStateInvalid, risk)
    else if !env.fills || !env.funding || env.account.None? then End(VenueFailed, risk)
    else if !ValidAccount(env.account.value, leverage) then End(PolicyViolated, risk)
    else
      var start, end := risk.lastReconciliationMs, env.at.value;
      var later := AfterReconcile(risk, env, day);
      Then(WindowOf(cycleId, FillsReported, env.contents.fills, start, end),
      Then(WindowOf(cycleId, FundingReported, env.contents.funding, start, end),
      Then(Note(cycleId, Reconciled, env.contents.reconciliation),
      Then(Note(cycleId, PortfolioObserved, env.contents.portfolio),
      Then(StoreRisk(later),
      End(Completed(submitted), later))))))
  }

  function Counted(risk: LiveRiskState): LiveRiskState {
    risk.(ordersToday := Min(risk.ordersToday + 1, U16_MAX))
  }

  /** Policy outcome, order event, the incremented counter, and only then the venue. */
  function DispatchPlan(config: LiveConfig, env: CycleEnv, order: OrderDecision, basis: Basis): Plan {
    var cycleId := Some(env.cycleId);
    var id := env.dispatch.clientOrderId;
    var later := Counted(basis.risk);
    Then(Note(cycleId, PolicyOutcome, env.contents.outcome),
    Then(EmitEvent(Draft(cycleId, OrderSubmitted, env.contents.submission.occurredAt,
                         ClientOrder(id, order))),
    Then(StoreRisk(later),
    Then(SubmitIoc(Submission(env.day, id, order, basis)),
    if !env.dispatch.accepted then End(VenueFailed, later)
    else
      Then(Note(cycleId, VenueAcknowledgement, env.contents.acknowledgement),
      ReconcilePlan(config.isolatedLeverage, cycleId, env.reconcile, env.day, later, true))))))
  }

  /** The refreshed book has a limit for the order's side, and the policy can be asked. */
  predicate Askable(config: LiveConfig, basis: Basis) {
    && basis.view.Usable()
    && MarketableLimit(basis.view.book, basis.proposal.side).Some?
    && config.startingCapital <= I64_MAX
    && basis.view.book.HasTop(basis.proposal.side)
  }

  /** The policy question asked at dispatch: the market and the sizing reference come from the
      refreshed book, the portfolio from the refreshed account and the risk state. */
  function DispatchContext(config: LiveConfig, basis: Basis): PolicyContext
    requires Askable(config, basis)
  {
    var account, risk := basis.account, basis.risk;
    PolicyContext(config.rules, MarketOf(basis.view),
                  PortfolioState(account.equity, account.withdrawable, risk.dayStartEquity,
                                 risk.peakEquity, SignedNotional(account, basis.proposal.symbol),
                                 risk.ordersToday),
                  config.startingCapital, Some(basis.view.book.Top(basis.proposal.side)),
                  config.isolatedLeverage)
  }

  /** The proposal, its limit replaced by the deepest displayed price within the slippage. */
  function MarketableProposal(basis: Basis): Proposal
    requires MarketableLimit(basis.view.book, basis.proposal.side).Some?
  {
    basis.proposal.(limitPrice := MarketableLimit(basis.view.book, basis.proposal.side).value)
  }

  function Verdict(config: LiveConfig, basis: Basis): Result<OrderDecision, PolicyError>
    requires Askable(config, basis)
  {
    EvaluateProposal(MarketableProposal(basis), DispatchContext(config, basis))
  }

  function Declined(env: CycleEnv, risk: LiveRiskState): Plan {
    Then(Note(Some(env.cycleId), PolicyOutcome, env.contents.outcome),
    Then(StoreRisk(risk),
    End(Completed(false), risk)))
  }

  function OrderPlan(config: LiveConfig, env: CycleEnv, basis: Basis): Plan
    requires basis.view.Usable()
  {
    if MarketableLimit(basis.view.book, basis.proposal.side).None? then End(VenueFailed, basis.risk)
    else if config.startingCapital > I64_MAX then End(RiskStateInvalid, basis.risk)
    else if !basis.view.book.HasTop(basis.proposal.side) then End(VenueFailed, basis.risk)
    else if Verdict(config, basis).Err? || !env.dispatch.permitted then Declined(env, basis.risk)
    else DispatchPlan(config, env, Verdict(config, basis).value, basis)
  }

  /** The view is observed no earlier than the request for it. */
  function ObservedView(dispatch: DispatchEnv): MarketView
    requires dispatch.nowMs.Some? && dispatch.view.Some?
  {
    dispatch.view.value.(observedAtMs := Max(dispatch.view.value.observedAtMs, dispatch.nowMs.value))
  }

  /** The account is refreshed first, the book last. */
  function ProposalPlan(config: LiveConfig, env: CycleEnv, proposal: Proposal, risk: LiveRiskState)
    : Plan
  {
    var dispatch := env.dispatch;
    if dispatch.account.None? then End(VenueFailed, risk)
    else if !ValidAccount(dispatch.account.value, config.isolatedLeverage) then
      End(PolicyViolated, risk)
    else
      var dated := UpdateRiskState(risk, dispatch.account.value, env.day);
      if dispatch.nowMs.None? then End(RiskStateInvalid, dated)
      else if dispatch.view.None? || !ObservedView(dispatch).Usable() then End(VenueFailed, dated)
      else
        Then(Note(Some(env.cycleId), BookObserved, env.contents.dispatchBook),
        OrderPlan(config, env, Basis(dispatch.account.value, ObservedView(dispatch), proposal, dated)))
  }

  function ReceiptPlan(env: CycleEnv, receipts: seq<Content>, rest: Plan): Plan
    decreases |receipts|
  {
    if receipts == [] then rest
    else
      Then(Note(Some(env.cycleId), InferenceReceipt, receipts[0]),
      ReceiptPlan(env, receipts[1..], rest))
  }

  function DecidedPlan(config: LiveConfig, env: CycleEnv, proposal: Option<Proposal>,
                       risk: LiveRiskState): Plan
  {
    Then(Note(Some(env.cycleId), ProposalMade, env.contents.proposal),
    if proposal.None? then Declined(env, risk)
    else ProposalPlan(config, env, proposal.value, risk))
  }

  function DecisionPlan(config: LiveConfig, env: CycleEnv, risk: LiveRiskState): Plan {
    match env.decision
    case Failed =>
      Then(Note(Some(env.cycleId), CycleFailed, env.contents.failure),
      Then(StoreRisk(risk),
      End(ModelFailed, risk)))
    case Decided(receipts, proposal) =>
      ReceiptPlan(env, receipts, DecidedPlan(config, env, proposal, risk))
  }

  function CyclePlan(config: LiveConfig, env: CycleEnv, risk: LiveRiskState): Plan {
    if env.nowMs.None? then End(RiskStateInvalid, risk)
    else if env.account.None? then End(VenueFailed, risk)
    else if !ValidAccount(env.account.value, config.isolatedLeverage) then End(PolicyViolated, risk)
    else
      var dated := UpdateRiskState(risk, env.account.value, env.day);
      if !env.snapshots || !env.candles then End(VenueFailed, dated)
      else
        var cycleId := Some(env.cycleId);
        Then(Note(cycleId, CycleStarted, env.contents.started),
        Then(Note(cycleId, BookObserved, env.contents.book),
        Then(Note(cycleId, CandleClosed, env.contents.candles),
        Then(Note(cycleId, PortfolioObserved, env.contents.portfolio),
        DecisionPlan(config, env, dated)))))
  }

  // ---------------------------------------------------------------- the agent

  class LiveVenue {
    var submissions: seq<Submission>

    constructor ()
      ensures submissions == []
    {
      submissions := [];
    }

    method SubmitIoc(submission: Submission)
      modifies this
      ensures submissions == old(submissions) + [submission]
    {
      submissions := submissions + [submission];
    }
  }

  /** A process trading one run: its writer, its venue, and the risk state it holds in memory. */
  class LiveAgent {
    const writer: DurableRunEventWriter
    const venue: LiveVenue
    const config: LiveConfig
    var risk: LiveRiskState
    ghost var mark: Option<u64>

    constructor (writer: DurableRunEventWriter, venue: LiveVenue, config: LiveConfig,
                 risk: LiveRiskState, ghost mark: Option<u64>)
      requires writer.Valid()
      ensures this.writer == writer && this.venue == venue && this.config == config
      ensures this.risk == risk && this.mark == mark && Valid()
      ensures Durable() == World(writer.Wired(),
                                 StoredRisk(writer.journal.secrets, writer.origin.runId), mark,
                                 venue.submissions)
    {
      this.writer := writer;
      this.venue := venue;
      this.config := config;
      this.risk := risk;
      this.mark := mark;
    }

    ghost predicate Valid() {
      writer.Valid()
    }

    /** What a restarted process will find. */
    ghost function Durable(): World
      reads this`mark, writer.journal, writer.sink, venue
    {
      World(writer.Wired(), StoredRisk(writer.journal.secrets, writer.origin.runId), mark,
            venue.submissions)
    }

    /** Appends the event the plan asks for next. */
    method Emit(draft: Draft, ghost plan: Plan) returns (outcome: Outcome)
      requires Valid() && plan.Then? && plan.act == EmitEvent(draft)
      modifies writer.journal`rows, writer.sink
      ensures Perform(writer.origin, old(Durable()), plan)
              == if outcome == Done then Perform(writer.origin, Durable(), plan.rest)
                 else (Durable(), Stopped(outcome))
    {
      hide Append;
      outcome := writer.AppendEvent(draft);
    }

    /** Flushes when the plan asks for it. */
    method FlushPending(ghost plan: Plan) returns (outcome: Outcome)
      requires Valid() && plan.Then? && plan.act == FlushFirst
      modifies writer.journal`rows, writer.sink
      ensures Perform(writer.origin, old(Durable()), plan)
              == if outcome == Done then Perform(writer.origin, Durable(), plan.rest)
                 else (Durable(), Stopped(outcome))
    {
      hide Flush;
      var flushed, _ := writer.FlushPending();
      outcome := flushed;
    }

    method NoteEvent(cycleId: Option<nat>, kind: Kind, content: Content, ghost plan: Plan)
      returns (outcome: Outcome)
      requires Valid() && plan.Then? && plan.act == Note(cycleId, kind, content)
      modifies writer.journal`rows, writer.sink
      ensures Perform(writer.origin, old(Durable()), plan)
              == if outcome == Done then Perform(writer.origin, Durable(), plan.rest)
                 else (Durable(), Stopped(outcome))
    {
      outcome := Emit(Draft(cycleId, kind, content.occurredAt, Opaque(content.data)), plan);
    }

    /** Writes the risk state held in memory. */
    method Store(ghost plan: Plan)
      requires plan.Then? && plan.act == StoreRisk(risk)
      modifies this`mark, writer.journal`secrets
      ensures Perform(writer.origin, old(Durable()), plan)
              == Perform(writer.origin, Durable(), plan.rest)
    {
      var stored := writer.journal.PutSecret(RiskStateOf(writer.origin.runId), RiskState(risk));
      mark := Marked(mark, risk);
    }

    /** Asks the venue what happened since the last reconciliation, reports it, and only then moves
        the durable reconciliation time. */
    method ReconcileLiveState(cycleId: Option<nat>, env: ReconcileEnv, day: int, submitted: bool)
      returns (finish: Finish)
      requires Valid()
      modifies this, writer.journal, writer.sink
      ensures (Durable(), finish)
              == Perform(writer.origin, old(Durable()),
                         ReconcilePlan(config.isolatedLeverage, cycleId, env, day, old(risk),
                                       submitted))
      ensures finish.Ended? ==> risk == finish.risk
    {
      ghost var plan := ReconcilePlan(config.isolatedLeverage, cycleId, env, day, risk, submitted);
      hide Perform, UpdateRiskState, ValidAccount;
      if env.at.None? {
        finish := Stand(RiskStateInvalid, plan);
        return;
      }
      if !env.fills || !env.funding || env.account.None? {
        finish := Stand(VenueFailed, plan);
        return;
      }
      if !ValidAccount(env.account.value, config.isolatedLeverage) {
        finish := Stand(PolicyViolated, plan);
        return;
      }
      var start, end := risk.lastReconciliationMs, env.at.value;
      risk := risk.(lastReconciliationMs := end);
      risk := UpdateRiskState(risk, env.account.value, day);
      var fills := Draft(cycleId, FillsReported, env.contents.fills.occurredAt, Window(start, end));
      var outcome := Emit(fills, plan);
      if outcome != Done {
        return Stopped(outcome);
      }
      var funding := Draft(cycleId, FundingReported, env.contents.funding.occurredAt, Window(start, end));
      outcome := Emit(funding, plan.rest);
      if outcome != Done {
        return Stopped(outcome);
      }
      outcome := NoteEvent(cycleId, Reconciled, env.contents.reconciliation, plan.rest.rest);
      if outcome != Done {
        return Stopped(outcome);
      }
      plan := plan.rest.rest.rest;
      outcome := NoteEvent(cycleId, PortfolioObserved, env.contents.portfolio, plan);
      if outcome != Done {
        return Stopped(outcome);
      }
      Store(plan.rest);
      finish := Stand(Completed(submitted), plan.rest.rest);
    }

    /** Nothing is left to do. */
    method Stand(ending: Ending, ghost plan: Plan) returns (finish: Finish)
      requires plan == End(ending, risk)
      ensures finish == Ended(ending, risk)
      ensures Perform(writer.origin, Durable(), plan) == (Durable(), finish)
    {
      finish := Ended(ending, risk);
    }

    /** A held, refused or blocked order: the outcome is reported and the risk state stored. */
    method Decline(env: CycleEnv, ghost plan: Plan) returns (finish: Finish)
      requires Valid() && plan == Declined(env, risk)
      modifies this`mark, writer.journal, writer.sink
      ensures (Durable(), finish) == Perform(writer.origin, old(Durable()), plan)
      ensures finish.Ended? ==> risk == finish.risk
    {
      hide Perform;
      var outcome := NoteEvent(Some(env.cycleId), PolicyOutcome, env.contents.outcome, plan);
      if outcome != Done {
        return Stopped(outcome);
      }
      Store(plan.rest);
      finish := Stand(Completed(false), plan.rest.rest);
    }

    /** Sends an approved order: announced and counted durably before the venue sees it. */
    method DispatchOrder(env: CycleEnv, order: OrderDecision, basis: Basis, ghost whole: Plan)
      returns (finish: Finish)
      requires Valid() && basis.risk == risk && whole == DispatchPlan(config, env, order, basis)
      modifies this, writer.journal, writer.sink, venue
      ensures (Durable(), finish) == Perform(writer.origin, old(Durable()), whole)
      ensures finish.Ended? ==> risk == finish.risk
    {
      hide Perform, ReconcilePlan;
      ghost var plan := whole;
      var cycleId := Some(env.cycleId);
      var id := env.dispatch.clientOrderId;
      var outcome := NoteEvent(cycleId, PolicyOutcome, env.contents.outcome, plan);
      if outcome != Done {
        return Stopped(outcome);
      }
      plan := plan.rest;
      var announcement :=
        Draft(cycleId, OrderSubmitted, env.contents.submission.occurredAt, ClientOrder(id, order));
      outcome := Emit(announcement, plan);
      if outcome != Done {
        return Stopped(outcome);
      }
      plan := plan.rest;
      risk := risk.(ordersToday := Min(risk.ordersToday + 1, U16_MAX));
      Store(plan);
      plan := plan.rest;
      Send(Submission(env.day, id, order, basis), plan);
      plan := plan.rest;
      if !env.dispatch.accepted {
        finish := Stand(VenueFailed, plan);
        return;
      }
      outcome := NoteEvent(cycleId, VenueAcknowledgement, env.contents.acknowledgement, plan);
      if outcome != Done {
        return Stopped(outcome);
      }
      finish := ReconcileLiveState(cycleId, env.reconcile, env.day, true);
    }

    method Send(submission: Submission, ghost plan: Plan)
      requires plan.Then? && plan.act == SubmitIoc(submission)
      modifies venue
      ensures Perform(writer.origin, old(Durable()), plan)
              == Perform(writer.origin, Durable(), plan.rest)
    {
      venue.SubmitIoc(submission);
    }

    /** Refreshes account and book, normalises the proposal to the book, asks the policy and the
        execution gate, and dispatches or declines. */
    method ConsiderProposal(env: CycleEnv, proposal: Proposal, ghost whole: Plan)
      returns (finish: Finish)
      requires Valid() && whole == ProposalPlan(config, env, proposal, risk)
      modifies this, writer.journal, writer.sink, venue
      ensures (Durable(), finish) == Perform(writer.origin, old(Durable()), whole)
      ensures finish.Ended? ==> risk == finish.risk
    {
      hide Perform, DispatchPlan, Declined, UpdateRiskState, ValidAccount, EvaluateProposal,
           StopReadable, Swept, PriceOf, MarketOf;
      ghost var plan := whole;
      var dispatch := env.dispatch;
      if dispatch.account.None? {
        finish := Stand(VenueFailed, plan);
        return;
      }
      var account := dispatch.account.value;
      if !ValidAccount(account, config.isolatedLeverage) {
        finish := Stand(PolicyViolated, plan);
        return;
      }
      risk := UpdateRiskState(risk, account, env.day);
      if dispatch.nowMs.None? {
        finish := Stand(RiskStateInvalid, plan);
        return;
      }
      if dispatch.view.None? {
        finish := Stand(VenueFailed, plan);
        return;
      }
      var view := ObservedView(dispatch);
      var snapshot := MarketSnapshotFromParts(view);
      if snapshot.None? {
        finish := Stand(VenueFailed, plan);
        return;
      }
      var outcome := NoteEvent(Some(env.cycleId), BookObserved, env.contents.dispatchBook, plan);
      if outcome != Done {
        return Stopped(outcome);
      }
      plan := plan.rest;
      var basis := Basis(account, view, proposal, risk);
      finish := AskPolicy(env, basis, snapshot.value, plan);
    }

    /** Normalises the proposal to the book and asks the policy and the execution gate. */
    method AskPolicy(env: CycleEnv, basis: Basis, snapshot: MarketSnapshot, ghost plan: Plan)
      returns (finish: Finish)
      requires Valid() && basis.risk == risk && basis.view.Usable()
      requires snapshot == MarketSnapshot(MarketOf(basis.view), basis.view.book)
      requires plan == OrderPlan(config, env, basis)
      modifies this, writer.journal, writer.sink, venue
      ensures (Durable(), finish) == Perform(writer.origin, old(Durable()), plan)
      ensures finish.Ended? ==> risk == finish.risk
    {
      hide Perform, DispatchPlan, Declined, EvaluateProposal, StopReadable, Swept, PriceOf, MarketOf;
      var proposal := basis.proposal;
      var limit := snapshot.book.MarketableLimitPrice(proposal.side);
      if limit.Err? {
        finish := Stand(VenueFailed, plan);
        return;
      }
      if config.startingCapital > I64_MAX {
        finish := Stand(RiskStateInvalid, plan);
        return;
      }
      var top := snapshot.book.OpposingTopPrice(proposal.side);
      if top.Err? {
        finish := Stand(VenueFailed, plan);
        return;
      }
      var portfolio := PortfolioState(basis.account.equity, basis.account.withdrawable,
                                      risk.dayStartEquity, risk.peakEquity,
                                      SignedNotional(basis.account, proposal.symbol),
                                      risk.ordersToday);
      var context := PolicyContext(config.rules, snapshot.market, portfolio, config.startingCapital,
                                   Some(top.value), config.isolatedLeverage);
      var order := EvaluateProposal(proposal.(limitPrice := limit.value), context);
      if order.Err? {
        finish := Decline(env, plan);
        return;
      }
      if !env.dispatch.permitted {
        finish := Decline(env, plan);
        return;
      }
      finish := DispatchOrder(env, order.value, basis, plan);
    }

    /** One decision cycle. */
    method ExecuteLiveCycle(env: CycleEnv) returns (finish: Finish)
      requires Valid()
      modifies this, writer.journal, writer.sink, venue
      ensures (Durable(), finish)
              == Perform(writer.origin, old(Durable()), CyclePlan(config, env, old(risk)))
      ensures finish.Ended? ==> risk == finish.risk
    {
      hide Perform, DecisionPlan, UpdateRiskState, ValidAccount;
      ghost var plan := CyclePlan(config, env, risk);
      if env.nowMs.None? {
        finish := Stand(RiskStateInvalid, plan);
        return;
      }
      if env.account.None? {
        finish := Stand(VenueFailed, plan);
        return;
      }
      if !ValidAccount(env.account.value, config.isolatedLeverage) {
        finish := Stand(PolicyViolated, plan);
        return;
      }
      risk := UpdateRiskState(risk, env.account.value, env.day);
      if !env.snapshots || !env.candles {
        finish := Stand(VenueFailed, plan);
        return;
      }
      var cycleId := Some(env.cycleId);
      var outcome := NoteEvent(cycleId, CycleStarted, env.contents.started, plan);
      if outcome != Done {
        return Stopped(outcome);
      }
      plan := plan.rest;
      outcome := NoteEvent(cycleId, BookObserved, env.contents.book, plan);
      if outcome != Done {
        return Stopped(outcome);
      }
      plan := plan.rest;
      outcome := NoteEvent(cycleId, CandleClosed, env.contents.candles, plan);
      if outcome != Done {
        return Stopped(outcome);
      }
      plan := plan.rest;
      outcome := NoteEvent(cycleId, PortfolioObserved, env.contents.portfolio, plan);
      if outcome != Done {
        return Stopped(outcome);
      }
      finish := FollowDecision(env, plan.rest);
    }

    /** A failed decision is recorded and leaves the run alive; a decision is reported with its
        inference receipts before anything acts on it. */
    method FollowDecision(env: CycleEnv, ghost whole: Plan) returns (finish: Finish)
      requires Valid() && whole == DecisionPlan(config, env, risk)
      modifies this, writer.journal, writer.sink, venue
      ensures (Durable(), finish) == Perform(writer.origin, old(Durable()), whole)
      ensures finish.Ended? ==> risk == finish.risk
    {
      hide Perform, ProposalPlan, Declined;
      ghost var plan := whole;
      var cycleId := Some(env.cycleId);
      if env.decision.Failed? {
        var failed := NoteEvent(cycleId, CycleFailed, env.contents.failure, plan);
        if failed != Done {
          return Stopped(failed);
        }
        Store(plan.rest);
        finish := Stand(ModelFailed, plan.rest.rest);
        return;
      }
      var receipts := env.decision.receipts;
      ghost var decided := DecidedPlan(config, env, env.decision.proposal, risk);
      for i := 0 to |receipts|
        invariant plan == ReceiptPlan(env, receipts[i..], decided)
        invariant Perform(writer.origin, Durable(), plan)
                  == old(Perform(writer.origin, Durable(), whole))
        invariant risk == old(risk) && mark == old(mark)
      {
        assert receipts[i..][1..] == receipts[i + 1..];
        var reported := NoteEvent(cycleId, InferenceReceipt, receipts[i], plan);
        if reported != Done {
          return Stopped(reported);
        }
        plan := plan.rest;
      }
      var outcome := NoteEvent(cycleId, ProposalMade, env.contents.proposal, plan);
      if outcome != Done {
        return Stopped(outcome);
      }
      plan := plan.rest;
      if env.decision.proposal.None? {
        finish := Decline(env, plan);
        return;
      }
      finish := ConsiderProposal(env, env.decision.proposal.value, plan);
    }
  }
}
