/** What the journal tells: every event of a run was recorded by the stage of the run it speaks of, and
    a stage that is carried out records its events in order. */
module Trace {
  import opened Arithmetic
  import opened Policy
  import opened Book
  import opened Market
  import opened Events
  import opened Journal
  import opened Writer
  import opened WriterTheorems
  import opened Schedule
  import opened Live
  import opened LiveTheorems
  import opened Session
  import opened SessionTheorems

  // ---------------------------------------------------------------- what a plan records

  /** The events a plan appends, in order. */
  function Drafts(plan: Plan): seq<Draft>
    decreases plan
  {
    match plan
    case End(_, _) => []
    case Then(act, rest) => ActDrafts(act) + Drafts(rest)
  }

  function ActDrafts(act: Act): seq<Draft> {
    if act.EmitEvent? then [act.draft] else []
  }

  /** The rows appended carry the drafts, in order, as far as they go. */
  predicate Tells(origin: Origin, before: seq<Row>, after: seq<Row>, drafts: seq<Draft>) {
    && Continues(before, after)
    && |after| <= |before| + |drafts|
    && forall i :: |before| <= i < |after| ==> Carries(origin, after[i].envelope, drafts[i - |before|])
  }

  predicate TellsAll(origin: Origin, before: seq<Row>, after: seq<Row>, drafts: seq<Draft>) {
    Tells(origin, before, after, drafts) && |after| == |before| + |drafts|
  }

  lemma TellsOnward(origin: Origin, a: seq<Row>, b: seq<Row>, c: seq<Row>, first: seq<Draft>,
                    second: seq<Draft>)
    requires TellsAll(origin, a, b, first) && Tells(origin, b, c, second)
    ensures Tells(origin, a, c, first + second)
    ensures TellsAll(origin, b, c, second) ==> TellsAll(origin, a, c, first + second)
  {
    hide Carries;
    var drafts := first + second;
    forall i | |a| <= i < |c| ensures Carries(origin, c[i].envelope, drafts[i - |a|]) {
      if i < |b| {
        assert Carries(origin, b[i].envelope, first[i - |a|]);
        assert c[i].envelope == b[i].envelope;
      } else {
        assert drafts[i - |a|] == second[i - |b|];
      }
    }
  }

  lemma TellsLess(origin: Origin, before: seq<Row>, after: seq<Row>, drafts: seq<Draft>, more: seq<Draft>)
    requires Tells(origin, before, after, drafts)
    ensures Tells(origin, before, after, drafts + more)
  {
    hide Carries;
  }

  /** What one act does to the journal. */
  lemma ActTells(origin: Origin, world: World, act: Act)
    requires Settled(origin.crypto, world.wire)
    ensures var (next, outcome) := DoAct(origin, world, act);
            && Settled(origin.crypto, next.wire) && Hears(world.wire, next.wire)
            && Tells(origin, Own(origin, world), Own(origin, next), ActDrafts(act))
            && (outcome == Done ==>
                  TellsAll(origin, Own(origin, world), Own(origin, next), ActDrafts(act)))
  {
    hide Append, Flush, Settled, RunRows, Continues, Hears, Carries;
    SameRows(world.wire);
    match act {
      case EmitEvent(draft) => AppendEffect(origin, world.wire, draft);
      case FlushFirst => FlushSettles(origin, world.wire);
      case StoreRisk(_) => HearsNothing(world.wire, world.wire);
      case SubmitIoc(_) => HearsNothing(world.wire, world.wire);
    }
  }

  lemma {:induction false} PlanTells(origin: Origin, world: World, plan: Plan)
    requires Settled(origin.crypto, world.wire)
    ensures var (after, finish) := Perform(origin, world, plan);
            && Settled(origin.crypto, after.wire) && Hears(world.wire, after.wire)
            && Tells(origin, Own(origin, world), Own(origin, after), Drafts(plan))
            && (finish.Ended? ==>
                  TellsAll(origin, Own(origin, world), Own(origin, after), Drafts(plan)))
    decreases plan
  {
    hide DoAct, Settled, Own, Tells, Hears, ActDrafts;
    match plan {
      case End(_, _) => NothingTold(origin, world);
      case Then(act, rest) =>
        ActTells(origin, world, act);
        var (next, outcome) := DoAct(origin, world, act);
        if outcome == Done {
          PlanTells(origin, next, rest);
          var after := Perform(origin, next, rest).0;
          HearsOnward(world.wire, next.wire, after.wire);
          TellsOnward(origin, Own(origin, world), Own(origin, next), Own(origin, after),
                      ActDrafts(act), Drafts(rest));
        } else {
          TellsLess(origin, Own(origin, world), Own(origin, next), ActDrafts(act), Drafts(rest));
        }
    }
  }

  lemma NothingTold(origin: Origin, world: World)
    ensures Hears(world.wire, world.wire)
    ensures forall drafts :: Tells(origin, Own(origin, world), Own(origin, world), drafts)
    ensures TellsAll(origin, Own(origin, world), Own(origin, world), [])
  {
    HearsNothing(world.wire, world.wire);
    SameRows(world.wire);
  }

  lemma {:induction false} CutPlanTells(origin: Origin, world: World, plan: Plan, count: nat)
    requires Settled(origin.crypto, world.wire)
    ensures var after := PerformFirst(origin, world, plan, count);
            && Settled(origin.crypto, after.wire) && Hears(world.wire, after.wire)
            && Tells(origin, Own(origin, world), Own(origin, after), Drafts(plan))
    decreases plan
  {
    hide DoAct, Settled, Own, Tells, Hears, ActDrafts;
    if count == 0 || plan.End? {
      NothingTold(origin, world);
    } else {
      ActTells(origin, world, plan.act);
      var (next, outcome) := DoAct(origin, world, plan.act);
      if outcome == Done {
        CutPlanTells(origin, next, plan.rest, count - 1);
        var after := PerformFirst(origin, next, plan.rest, count - 1);
        HearsOnward(world.wire, next.wire, after.wire);
        TellsOnward(origin, Own(origin, world), Own(origin, next), Own(origin, after),
                    ActDrafts(plan.act), Drafts(plan.rest));
      } else {
        TellsLess(origin, Own(origin, world), Own(origin, next), ActDrafts(plan.act), Drafts(plan.rest));
      }
    }
  }

  lemma CarryTells(origin: Origin, world: World, plan: Plan, cut: Option<nat>)
    requires Settled(origin.crypto, world.wire)
    ensures var (after, finish) := Carry(origin, world, plan, cut);
            && Settled(origin.crypto, after.wire) && Hears(world.wire, after.wire)
            && Tells(origin, Own(origin, world), Own(origin, after), Drafts(plan))
            && (finish.Ended? ==>
                  TellsAll(origin, Own(origin, world), Own(origin, after), Drafts(plan)))
  {
    hide Perform, PerformFirst, Settled, Own, Tells, TellsAll, Hears;
    match cut {
      case None => PlanTells(origin, world, plan);
      case Some(count) => CutPlanTells(origin, world, plan, count);
    }
  }

  // ---------------------------------------------------------------- what a stage may record

  predicate Says(draft: Draft, kind: Kind, content: Content) {
    && draft.kind == kind && draft.payload == Opaque(content.data)
    && draft.occurredAt == content.occurredAt
  }

  /** The venue answered both questions about the time since the last reconciliation, and the account. */
  predicate Answered(env: ReconcileEnv, leverage: u8) {
    && env.at.Some? && env.fills && env.funding
    && env.account.Some? && Healthy(env.account.value, leverage)
  }

  /** A window of the kind from the last reconciliation to the time of an answered one. */
  predicate Spanned(draft: Draft, kind: Kind, content: Content, since: int, env: ReconcileEnv) {
    && draft.kind == kind && draft.occurredAt == content.occurredAt
    && env.at.Some? && draft.payload == Window(since, env.at.value)
  }

  /** The events of an answered reconciliation. */
  predicate OfReconciliation(draft: Draft, env: ReconcileEnv, leverage: u8, since: int) {
    var contents := env.contents;
    && Answered(env, leverage)
    && (|| Spanned(draft, FillsReported, contents.fills, since, env)
        || Spanned(draft, FundingReported, contents.funding, since, env)
        || Says(draft, Reconciled, contents.reconciliation)
        || Says(draft, PortfolioObserved, contents.portfolio))
  }

  /** The events of a cycle that was supplied with everything it asks for first. */
  predicate OfCycle(draft: Draft, config: LiveConfig, env: CycleEnv, since: int) {
    var contents := env.contents;
    && Supplied(config, env) && draft.cycleId == Some(env.cycleId)
    && (|| Says(draft, CycleStarted, contents.started)
        || Says(draft, BookObserved, contents.book)
        || Says(draft, CandleClosed, contents.candles)
        || Says(draft, PortfolioObserved, contents.portfolio)
        || (env.decision.Failed? && Says(draft, CycleFailed, contents.failure))
        || (env.decision.Decided? && OfDecision(draft, config, env, since)))
  }

  predicate OfDecision(draft: Draft, config: LiveConfig, env: CycleEnv, since: int)
    requires env.decision.Decided?
  {
    var contents := env.contents;
    || (exists i :: 0 <= i < |env.decision.receipts|
          && Says(draft, InferenceReceipt, env.decision.receipts[i]))
    || Says(draft, ProposalMade, contents.proposal)
    || Says(draft, PolicyOutcome, contents.outcome)
    || (env.decision.proposal.Some? && Says(draft, BookObserved, contents.dispatchBook))
    || (env.decision.proposal.Some? && env.dispatch.permitted && OfDispatch(draft, config, env, since))
  }

  /** The events of an order: its announcement, and once the venue has accepted it, the venue's
      acknowledgement and an answered reconciliation. */
  predicate OfDispatch(draft: Draft, config: LiveConfig, env: CycleEnv, since: int) {
    || (&& draft.kind == OrderSubmitted && draft.payload.ClientOrder?
        && draft.payload.id == env.dispatch.clientOrderId
        && draft.occurredAt == env.contents.submission.occurredAt)
    || (env.dispatch.accepted && Says(draft, VenueAcknowledgement, env.contents.acknowledgement))
    || (env.dispatch.accepted
        && OfReconciliation(draft, env.reconcile, config.isolatedLeverage, since))
  }

  predicate OfMissed(draft: Draft, arena: Arena, index: nat, missing: Missing) {
    && draft.kind == MissedCycle && draft.cycleId == Some(missing.cycleId)
    && draft.occurredAt == missing.occurredAt
    && ScheduledCycleAt(arena.span, arena.cooldown, index).Ok?
    && draft.payload == Boundary(ScheduledCycleAt(arena.span, arena.cooldown, index).value)
  }

  /** When the run was last reconciled, as the session that recovers finds it. */
  function Since(held: Option<LiveRiskState>, first: FirstState): int {
    if held.Some? then held.value.lastReconciliationMs
    else if first.at.Some? then first.at.value else 0
  }

  /** The schedule has no cycle left, or the arena has ended. */
  predicate UsedUp(arena: Arena, completed: int, now: Instant) {
    arena.Expected().Ok? && (completed >= arena.Expected().value || now >= arena.span.endsAt)
  }

  /** Which events each stage may record, and when. */
  predicate MayRecord(arena: Arena, before: Process, op: Op, draft: Draft) {
    var phase, leverage := before.phase, arena.live.isolatedLeverage;
    match op
    case Die => false
    case Initialize(now, contents, _) =>
      && phase.Down? && now < arena.span.endsAt && draft.cycleId.None?
      && (|| Says(draft, RunStarted, contents.started)
          || (arena.handoff && Says(draft, HandoffSnapshot, contents.handoff))
          || Says(draft, RunPaused, contents.paused))
    case Recover(first, env, _, _) =>
      && phase.ChainReady? && draft.cycleId.None?
      && OfReconciliation(draft, env, leverage, Since(before.world.risk, first))
    case CatchUp(now, missing, resume, content, _) =>
      && phase.StateReady? && arena.Expected().Ok?
      && (|| (exists index :: && phase.completed <= index < arena.Expected().value
                              && OfMissed(draft, arena, index, missing(index)))
          || Says(draft, RunStopped, content)
          || (resume && Says(draft, RunResumed, content)))
    case CycleTick(wake, _) =>
      && phase.Running?
      && if UsedUp(arena, phase.completed, wake.now) then Says(draft, RunStopped, wake.content)
         else if wake.running then
           OfCycle(draft, arena.live, wake.env, phase.risk.lastReconciliationMs)
         else OfMissed(draft, arena, phase.completed, wake.missing)
    case Lifecycle(control, content, _) =>
      && phase.Running?
      && Says(draft, match control
                     case Resume => RunResumed
                     case Pause => RunPaused
                     case Stop => RunStopped
                     case SwitchStrategy => StrategyChanged, content)
  }

  // ---------------------------------------------------------------- the plans record no more

  lemma ReconcileRecords(leverage: u8, cycleId: Option<nat>, env: ReconcileEnv, day: int,
                         risk: LiveRiskState, submitted: bool)
    ensures var drafts := Drafts(ReconcilePlan(leverage, cycleId, env, day, risk, submitted));
            forall i :: 0 <= i < |drafts| ==>
              && drafts[i].cycleId == cycleId
              && OfReconciliation(drafts[i], env, leverage, risk.lastReconciliationMs)
  {
    hide ValidAccount, UpdateRiskState, Healthy;
    var plan := ReconcilePlan(leverage, cycleId, env, day, risk, submitted);
    if env.account.Some? {
      HealthyIsValid(env.account.value, leverage);
    }
    if plan.Then? {
      ReconcileDrafts(leverage, cycleId, env, day, risk, submitted);
    }
  }

  /** The four events of a reconciliation, in order. */
  function Reconciliation(cycleId: Option<nat>, env: ReconcileEnv, since: int): seq<Draft>
    requires env.at.Some?
  {
    var contents := env.contents;
    [Draft(cycleId, FillsReported, contents.fills.occurredAt, Window(since, env.at.value)),
     Draft(cycleId, FundingReported, contents.funding.occurredAt, Window(since, env.at.value)),
     Told(cycleId, Reconciled, contents.reconciliation),
     Told(cycleId, PortfolioObserved, contents.portfolio)]
  }

  function Told(cycleId: Option<nat>, kind: Kind, content: Content): Draft {
    Draft(cycleId, kind, content.occurredAt, Opaque(content.data))
  }

  lemma ReconcileDrafts(leverage: u8, cycleId: Option<nat>, env: ReconcileEnv, day: int,
                        risk: LiveRiskState, submitted: bool)
    requires ReconcilePlan(leverage, cycleId, env, day, risk, submitted).Then?
    ensures env.at.Some?
    ensures Drafts(ReconcilePlan(leverage, cycleId, env, day, risk, submitted))
            == Reconciliation(cycleId, env, risk.lastReconciliationMs)
  {
    hide ValidAccount, UpdateRiskState;
    var plan := ReconcilePlan(leverage, cycleId, env, day, risk, submitted);
    var store := plan.rest.rest.rest.rest;
    assert Drafts(store.rest) == [];
    assert Drafts(store) == [];
    assert Drafts(plan.rest.rest.rest) == [plan.rest.rest.rest.act.draft];
    assert Drafts(plan.rest.rest) == [plan.rest.rest.act.draft] + Drafts(plan.rest.rest.rest);
    assert Drafts(plan.rest) == [plan.rest.act.draft] + Drafts(plan.rest.rest);
  }

  lemma SaidAct(cycleId: Option<nat>, kind: Kind, content: Content, rest: Plan)
    ensures Drafts(Then(Note(cycleId, kind, content), rest))
            == [Told(cycleId, kind, content)] + Drafts(rest)
  {
  }

  lemma SilentAct(act: Act, rest: Plan)
    requires !act.EmitEvent?
    ensures Drafts(Then(act, rest)) == Drafts(rest)
  {
    assert [] + Drafts(rest) == Drafts(rest);
  }

  lemma DeclinedDrafts(env: CycleEnv, risk: LiveRiskState)
    ensures Drafts(Declined(env, risk))
            == [Told(Some(env.cycleId), PolicyOutcome, env.contents.outcome)]
  {
    var store := Declined(env, risk).rest;
    assert Drafts(store.rest) == [];
    SilentAct(store.act, store.rest);
    SaidAct(Some(env.cycleId), PolicyOutcome, env.contents.outcome, store);
  }

  /** The events of a dispatched order, up to its announcement. */
  function Announcement(env: CycleEnv, order: OrderDecision): seq<Draft> {
    var cycleId := Some(env.cycleId);
    [Told(cycleId, PolicyOutcome, env.contents.outcome),
     Draft(cycleId, OrderSubmitted, env.contents.submission.occurredAt,
           ClientOrder(env.dispatch.clientOrderId, order))]
  }

  lemma DispatchDrafts(config: LiveConfig, env: CycleEnv, order: OrderDecision, basis: Basis)
    ensures var later := ReconcilePlan(config.isolatedLeverage, Some(env.cycleId), env.reconcile, env.day,
                                       Counted(basis.risk), true);
            Drafts(DispatchPlan(config, env, order, basis))
            == Announcement(env, order)
               + (if env.dispatch.accepted then
                    [Told(Some(env.cycleId), VenueAcknowledgement, env.contents.acknowledgement)]
                    + Drafts(later)
                  else [])
  {
    hide ReconcilePlan;
    var plan := DispatchPlan(config, env, order, basis);
    var store := plan.rest.rest;
    var sent := store.rest.rest;
    SilentAct(store.rest.act, sent);
    SilentAct(store.act, store.rest);
    assert Drafts(plan.rest) == [plan.rest.act.draft] + Drafts(store);
    SaidAct(Some(env.cycleId), PolicyOutcome, env.contents.outcome, plan.rest);
    if env.dispatch.accepted {
      SaidAct(Some(env.cycleId), VenueAcknowledgement, env.contents.acknowledgement, sent.rest);
    } else {
      assert Drafts(sent) == [];
    }
  }

  predicate AllOfDecision(drafts: seq<Draft>, config: LiveConfig, env: CycleEnv, since: int)
    requires env.decision.Decided?
  {
    forall i :: 0 <= i < |drafts| ==>
      drafts[i].cycleId == Some(env.cycleId) && OfDecision(drafts[i], config, env, since)
  }

  lemma DispatchRecords(config: LiveConfig, env: CycleEnv, order: OrderDecision, basis: Basis)
    requires env.decision.Decided? && env.decision.proposal.Some? && env.dispatch.permitted
    ensures AllOfDecision(Drafts(DispatchPlan(config, env, order, basis)), config, env,
                          basis.risk.lastReconciliationMs)
  {
    DispatchDrafts(config, env, order, basis);
    ReconcileRecords(config.isolatedLeverage, Some(env.cycleId), env.reconcile, env.day,
                     Counted(basis.risk), true);
    hide DispatchPlan, ReconcilePlan, OfReconciliation;
    var drafts := Drafts(DispatchPlan(config, env, order, basis));
    var later := Drafts(ReconcilePlan(config.isolatedLeverage, Some(env.cycleId), env.reconcile, env.day,
                                      Counted(basis.risk), true));
    forall i | 0 <= i < |drafts|
      ensures drafts[i].cycleId == Some(env.cycleId)
      ensures OfDecision(drafts[i], config, env, basis.risk.lastReconciliationMs)
    {
      if i >= 3 {
        assert drafts[i] == later[i - 3];
      }
    }
  }

  lemma OrderRecords(config: LiveConfig, env: CycleEnv, basis: Basis)
    requires basis.view.Usable() && env.decision.Decided? && env.decision.proposal.Some?
    ensures AllOfDecision(Drafts(OrderPlan(config, env, basis)), config, env,
                          basis.risk.lastReconciliationMs)
  {
    hide DispatchPlan, Declined, Verdict, MarketableLimit, BookSnapshot.HasTop, MarketView.Usable,
         OfDispatch;
    DeclinedDrafts(env, basis.risk);
    if Askable(config, basis) && Verdict(config, basis).Ok? && env.dispatch.permitted {
      DispatchRecords(config, env, Verdict(config, basis).value, basis);
    }
  }

  lemma UpdatedTime(risk: LiveRiskState, account: AccountSnapshot, day: int)
    ensures UpdateRiskState(risk, account, day).lastReconciliationMs == risk.lastReconciliationMs
  {
  }

  lemma ProposalRecords(config: LiveConfig, env: CycleEnv, proposal: Proposal, risk: LiveRiskState)
    requires env.decision.Decided? && env.decision.proposal == Some(proposal)
    ensures AllOfDecision(Drafts(ProposalPlan(config, env, proposal, risk)), config, env,
                          risk.lastReconciliationMs)
  {
    hide OrderPlan, UpdateRiskState, ValidAccount, MarketView.Usable, ObservedView, OfDispatch;
    var plan := ProposalPlan(config, env, proposal, risk);
    if plan.Then? {
      var account := env.dispatch.account.value;
      var dated := UpdateRiskState(risk, account, env.day);
      UpdatedTime(risk, account, env.day);
      SaidAct(Some(env.cycleId), BookObserved, env.contents.dispatchBook, plan.rest);
      OrderRecords(config, env, Basis(account, ObservedView(env.dispatch), proposal, dated));
    }
  }

  /** The receipts of a decision, in order. */
  function Receipts(env: CycleEnv, receipts: seq<Content>): seq<Draft> {
    seq(|receipts|, i requires 0 <= i < |receipts| =>
          Told(Some(env.cycleId), InferenceReceipt, receipts[i]))
  }

  lemma {:induction false} ReceiptDrafts(env: CycleEnv, receipts: seq<Content>, rest: Plan)
    ensures Drafts(ReceiptPlan(env, receipts, rest)) == Receipts(env, receipts) + Drafts(rest)
    decreases |receipts|
  {
    if receipts != [] {
      ReceiptDrafts(env, receipts[1..], rest);
      SaidAct(Some(env.cycleId), InferenceReceipt, receipts[0], ReceiptPlan(env, receipts[1..], rest));
      assert Receipts(env, receipts)
             == [Told(Some(env.cycleId), InferenceReceipt, receipts[0])] + Receipts(env, receipts[1..]);
    }
  }

  predicate AllOfCycle(drafts: seq<Draft>, config: LiveConfig, env: CycleEnv, since: int) {
    forall i :: 0 <= i < |drafts| ==> OfCycle(drafts[i], config, env, since)
  }

  lemma DecisionRecords(config: LiveConfig, env: CycleEnv, risk: LiveRiskState)
    requires Supplied(config, env)
    ensures AllOfCycle(Drafts(DecisionPlan(config, env, risk)), config, env, risk.lastReconciliationMs)
  {
    hide DecidedPlan, Supplied, OfDispatch;
    match env.decision {
      case Failed => FailedDrafts(config, env, risk);
      case Decided(receipts, proposal) =>
        DecidedDrafts(config, env, risk);
        DecidedRecords(config, env, risk);
        hide DecisionPlan, OfDecision;
        var drafts, head := Drafts(DecisionPlan(config, env, risk)), Receipts(env, receipts);
        var tail := Drafts(DecidedPlan(config, env, proposal, risk));
        forall i | 0 <= i < |drafts| ensures OfCycle(drafts[i], config, env, risk.lastReconciliationMs) {
          if i < |head| {
            assert drafts[i] == head[i];
            ReceiptIsOfDecision(config, env, i, risk.lastReconciliationMs);
          } else {
            assert drafts[i] == tail[i - |head|];
          }
        }
    }
  }

  lemma ReceiptIsOfDecision(config: LiveConfig, env: CycleEnv, i: nat, since: int)
    requires env.decision.Decided? && i < |env.decision.receipts|
    ensures var draft := Receipts(env, env.decision.receipts)[i];
            OfDecision(draft, config, env, since) && draft.cycleId == Some(env.cycleId)
  {
    hide OfDispatch;
    assert Says(Receipts(env, env.decision.receipts)[i], InferenceReceipt, env.decision.receipts[i]);
  }

  lemma FailedDrafts(config: LiveConfig, env: CycleEnv, risk: LiveRiskState)
    requires env.decision.Failed?
    ensures Drafts(DecisionPlan(config, env, risk))
            == [Told(Some(env.cycleId), CycleFailed, env.contents.failure)]
  {
    var plan := DecisionPlan(config, env, risk);
    assert Drafts(plan.rest.rest) == [];
    SilentAct(plan.rest.act, plan.rest.rest);
    SaidAct(Some(env.cycleId), CycleFailed, env.contents.failure, plan.rest);
  }

  lemma DecidedDrafts(config: LiveConfig, env: CycleEnv, risk: LiveRiskState)
    requires env.decision.Decided?
    ensures Drafts(DecisionPlan(config, env, risk))
            == Receipts(env, env.decision.receipts)
               + Drafts(DecidedPlan(config, env, env.decision.proposal, risk))
  {
    hide DecidedPlan;
    ReceiptDrafts(env, env.decision.receipts, DecidedPlan(config, env, env.decision.proposal, risk));
  }

  lemma DecidedRecords(config: LiveConfig, env: CycleEnv, risk: LiveRiskState)
    requires env.decision.Decided?
    ensures AllOfDecision(Drafts(DecidedPlan(config, env, env.decision.proposal, risk)), config, env,
                          risk.lastReconciliationMs)
  {
    hide ProposalPlan, Declined, OfDispatch;
    var proposal := env.decision.proposal;
    var decided := DecidedPlan(config, env, proposal, risk);
    SaidAct(Some(env.cycleId), ProposalMade, env.contents.proposal, decided.rest);
    if proposal.None? {
      DeclinedDrafts(env, risk);
    } else {
      ProposalRecords(config, env, proposal.value, risk);
    }
    var drafts := Drafts(decided);
    forall i | 0 <= i < |drafts|
      ensures drafts[i].cycleId == Some(env.cycleId)
      ensures OfDecision(drafts[i], config, env, risk.lastReconciliationMs)
    {
      if i > 0 {
        assert drafts[i] == Drafts(decided.rest)[i - 1];
      }
    }
  }

  /** The four events a cycle begins with. */
  function CycleHead(env: CycleEnv): seq<Draft> {
    var cycleId, contents := Some(env.cycleId), env.contents;
    [Told(cycleId, CycleStarted, contents.started), Told(cycleId, BookObserved, contents.book),
     Told(cycleId, CandleClosed, contents.candles), Told(cycleId, PortfolioObserved, contents.portfolio)]
  }

  lemma CycleDrafts(config: LiveConfig, env: CycleEnv, risk: LiveRiskState)
    ensures CyclePlan(config, env, risk).Then? <==> Supplied(config, env)
    ensures Supplied(config, env) ==>
              Drafts(CyclePlan(config, env, risk))
              == CycleHead(env)
                 + Drafts(DecisionPlan(config, env,
                                       UpdateRiskState(risk, env.account.value, env.day)))
    ensures !Supplied(config, env) ==> Drafts(CyclePlan(config, env, risk)) == []
  {
    hide DecisionPlan, UpdateRiskState, ValidAccount, Healthy;
    var plan, cycleId := CyclePlan(config, env, risk), Some(env.cycleId);
    if env.account.Some? {
      HealthyIsValid(env.account.value, config.isolatedLeverage);
    }
    if plan.Then? {
      var third := plan.rest.rest.rest;
      SaidAct(cycleId, PortfolioObserved, env.contents.portfolio, third.rest);
      SaidAct(cycleId, CandleClosed, env.contents.candles, third);
      SaidAct(cycleId, BookObserved, env.contents.book, plan.rest.rest);
      SaidAct(cycleId, CycleStarted, env.contents.started, plan.rest);
    }
  }

  lemma CycleRecords(config: LiveConfig, env: CycleEnv, risk: LiveRiskState)
    ensures AllOfCycle(Drafts(CyclePlan(config, env, risk)), config, env, risk.lastReconciliationMs)
  {
    CycleDrafts(config, env, risk);
    hide CyclePlan, DecisionPlan, UpdateRiskState, Supplied, OfDispatch, OfDecision;
    if Supplied(config, env) {
      SuppliedAccount(config, env);
      var dated := UpdateRiskState(risk, env.account.value, env.day);
      UpdatedTime(risk, env.account.value, env.day);
      DecisionRecords(config, env, dated);
      var drafts, tail := Drafts(CyclePlan(config, env, risk)), Drafts(DecisionPlan(config, env, dated));
      forall i | 0 <= i < |drafts| ensures OfCycle(drafts[i], config, env, risk.lastReconciliationMs) {
        if i >= 4 {
          assert drafts[i] == tail[i - 4];
        }
      }
    }
  }

  lemma SuppliedAccount(config: LiveConfig, env: CycleEnv)
    requires Supplied(config, env)
    ensures env.account.Some?
  {
  }

  // ---------------------------------------------------------------- what a finished cycle records

  /** Everything a cycle records when it ends and the run goes on: its four first events, then a failed
      decision, or the receipts and the proposal, the refreshed book if there was a proposal, the
      outcome, and for an order its announcement, the venue's acknowledgement and the reconciliation. */
  function CycleRecord(env: CycleEnv, sent: Option<OrderDecision>, since: int): seq<Draft>
    requires sent.Some? ==> env.reconcile.at.Some?
  {
    var cycleId, contents := Some(env.cycleId), env.contents;
    CycleHead(env)
    + match env.decision
      case Failed => [Told(cycleId, CycleFailed, contents.failure)]
      case Decided(receipts, proposal) =>
        Receipts(env, receipts) + [Told(cycleId, ProposalMade, contents.proposal)]
        + (if proposal.Some? then [Told(cycleId, BookObserved, contents.dispatchBook)] else [])
        + (match sent
           case None => [Told(cycleId, PolicyOutcome, contents.outcome)]
           case Some(order) =>
             Announcement(env, order)
             + [Told(cycleId, VenueAcknowledgement, contents.acknowledgement)]
             + Reconciliation(cycleId, env.reconcile, since))
  }

  function SentOrder(plan: Plan): Option<OrderDecision> {
    if Sendings(plan) == [] then None else Some(Sendings(plan)[0].order)
  }

  /** The plan records what the cycle records after its beginning. */
  predicate DecidedTells(plan: Plan, env: CycleEnv, since: int)
    requires env.decision.Decided?
  {
    var cycleId, contents, sent := Some(env.cycleId), env.contents, SentOrder(plan);
    Survives(EndingOf(plan)) ==>
      && (sent.Some? ==> env.reconcile.at.Some?)
      && Drafts(plan)
         == (match sent
             case None => [Told(cycleId, PolicyOutcome, contents.outcome)]
             case Some(order) =>
               Announcement(env, order)
               + [Told(cycleId, VenueAcknowledgement, contents.acknowledgement)]
               + Reconciliation(cycleId, env.reconcile, since))
  }

  lemma DispatchTells(config: LiveConfig, env: CycleEnv, order: OrderDecision, basis: Basis)
    requires env.decision.Decided?
    ensures DecidedTells(DispatchPlan(config, env, order, basis), env, basis.risk.lastReconciliationMs)
  {
    var later := Counted(basis.risk);
    var plan := DispatchPlan(config, env, order, basis);
    var leverage, cycleId := config.isolatedLeverage, Some(env.cycleId);
    DispatchDrafts(config, env, order, basis);
    DispatchCountsNothing(config, env, order, basis);
    DispatchEnds(config, env, order, basis);
    if env.dispatch.accepted
       && ReconcilePlan(leverage, cycleId, env.reconcile, env.day, later, true).Then? {
      ReconcileDrafts(leverage, cycleId, env.reconcile, env.day, later, true);
    }
    hide DispatchPlan, ReconcilePlan, Reconciliation;
  }

  lemma DispatchEnds(config: LiveConfig, env: CycleEnv, order: OrderDecision, basis: Basis)
    ensures Survives(EndingOf(DispatchPlan(config, env, order, basis))) ==>
              && env.dispatch.accepted
              && ReconcilePlan(config.isolatedLeverage, Some(env.cycleId), env.reconcile, env.day,
                               Counted(basis.risk), true).Then?
  {
    hide ValidAccount, UpdateRiskState;
    var plan := DispatchPlan(config, env, order, basis);
    var tail := plan.rest.rest.rest.rest;
    assert EndingOf(plan.rest.rest.rest) == EndingOf(tail);
    assert EndingOf(plan.rest.rest) == EndingOf(tail);
    assert EndingOf(plan.rest) == EndingOf(tail);
    if env.dispatch.accepted {
      assert EndingOf(tail) == EndingOf(tail.rest);
    }
  }

  lemma OrderTells(config: LiveConfig, env: CycleEnv, basis: Basis)
    requires basis.view.Usable() && env.decision.Decided?
    ensures DecidedTells(OrderPlan(config, env, basis), env, basis.risk.lastReconciliationMs)
  {
    hide DispatchPlan, Declined, Verdict, MarketableLimit, BookSnapshot.HasTop, MarketView.Usable,
         Reconciliation;
    DeclinedDrafts(env, basis.risk);
    DeclinedCountsNothing(env, basis.risk);
    if Askable(config, basis) && Verdict(config, basis).Ok? {
      DispatchTells(config, env, Verdict(config, basis).value, basis);
    }
  }

  lemma ProposalTells(config: LiveConfig, env: CycleEnv, proposal: Proposal, risk: LiveRiskState)
    requires env.decision.Decided?
    ensures var plan := ProposalPlan(config, env, proposal, risk);
            plan.Then? ==> DecidedTells(plan.rest, env, risk.lastReconciliationMs)
    ensures var plan := ProposalPlan(config, env, proposal, risk);
            && (plan.End? ==> !Survives(plan.ending))
            && (plan.Then? ==>
                  && Drafts(plan) == [Told(Some(env.cycleId), BookObserved, env.contents.dispatchBook)]
                                     + Drafts(plan.rest)
                  && Sendings(plan) == Sendings(plan.rest) && EndingOf(plan) == EndingOf(plan.rest))
  {
    hide OrderPlan, UpdateRiskState, ValidAccount, MarketView.Usable, ObservedView, DecidedTells;
    var plan := ProposalPlan(config, env, proposal, risk);
    if plan.Then? {
      var account := env.dispatch.account.value;
      UpdatedTime(risk, account, env.day);
      SaidAct(Some(env.cycleId), BookObserved, env.contents.dispatchBook, plan.rest);
      QuietAct(plan.act, plan.rest);
      OrderTells(config, env, Basis(account, ObservedView(env.dispatch), proposal,
                                    UpdateRiskState(risk, account, env.day)));
    }
  }

  /** After its beginning a cycle that ends, and the run with it goes on, records just this. */
  predicate DecisionTells(plan: Plan, env: CycleEnv, since: int) {
    var sent := SentOrder(plan);
    Survives(EndingOf(plan)) ==>
      && (sent.Some? ==> env.reconcile.at.Some?)
      && CycleHead(env) + Drafts(plan) == CycleRecord(env, sent, since)
  }

  lemma DecisionRecorded(config: LiveConfig, env: CycleEnv, risk: LiveRiskState)
    ensures DecisionTells(DecisionPlan(config, env, risk), env, risk.lastReconciliationMs)
  {
    hide DecidedPlan, CycleHead, ReceiptPlan, Reconciliation, Announcement;
    match env.decision {
      case Failed =>
        FailedDrafts(config, env, risk);
        var plan := DecisionPlan(config, env, risk);
        QuietAct(plan.rest.act, plan.rest.rest);
        QuietAct(plan.act, plan.rest);
      case Decided(receipts, proposal) =>
        DecidedDrafts(config, env, risk);
        ReceiptsCountNothing(env, receipts, DecidedPlan(config, env, proposal, risk));
        DecidedRecorded(config, env, risk);
    }
  }

  /** After the receipts. */
  predicate ProposalTold(plan: Plan, env: CycleEnv, since: int)
    requires env.decision.Decided?
  {
    var cycleId, contents, sent := Some(env.cycleId), env.contents, SentOrder(plan);
    Survives(EndingOf(plan)) ==>
      && (sent.Some? ==> env.reconcile.at.Some?)
      && Drafts(plan)
         == [Told(cycleId, ProposalMade, contents.proposal)]
            + (if env.decision.proposal.Some? then
                 [Told(cycleId, BookObserved, contents.dispatchBook)]
               else [])
            + (match sent
               case None => [Told(cycleId, PolicyOutcome, contents.outcome)]
               case Some(order) =>
                 Announcement(env, order)
                 + [Told(cycleId, VenueAcknowledgement, contents.acknowledgement)]
                 + Reconciliation(cycleId, env.reconcile, since))
  }

  lemma DecidedRecorded(config: LiveConfig, env: CycleEnv, risk: LiveRiskState)
    requires env.decision.Decided?
    ensures ProposalTold(DecidedPlan(config, env, env.decision.proposal, risk), env,
                         risk.lastReconciliationMs)
  {
    hide ProposalPlan, Declined, Reconciliation, Announcement;
    var proposal := env.decision.proposal;
    var plan := DecidedPlan(config, env, proposal, risk);
    SaidAct(Some(env.cycleId), ProposalMade, env.contents.proposal, plan.rest);
    QuietAct(plan.act, plan.rest);
    if proposal.None? {
      DeclinedDrafts(env, risk);
      DeclinedCountsNothing(env, risk);
    } else {
      ProposalTells(config, env, proposal.value, risk);
    }
  }

  /** A cycle that ends, and the run with it goes on, records exactly its record, in order. */
  lemma CycleTells(config: LiveConfig, env: CycleEnv, risk: LiveRiskState)
    ensures var plan := CyclePlan(config, env, risk);
            Survives(EndingOf(plan)) ==>
              && (SentOrder(plan).Some? ==> env.reconcile.at.Some?)
              && Drafts(plan) == CycleRecord(env, SentOrder(plan), risk.lastReconciliationMs)
  {
    hide DecisionPlan, UpdateRiskState, ValidAccount, Healthy, CycleHead, CycleRecord;
    CycleDrafts(config, env, risk);
    CycleBegins(config, env, risk);
    var plan := CyclePlan(config, env, risk);
    if plan.Then? {
      var dated := UpdateRiskState(risk, env.account.value, env.day);
      UpdatedTime(risk, env.account.value, env.day);
      DecisionRecorded(config, env, dated);
      var third := plan.rest.rest.rest;
      QuietAct(third.act, third.rest);
      QuietAct(plan.rest.rest.act, third);
      QuietAct(plan.rest.act, plan.rest.rest);
      QuietAct(plan.act, plan.rest);
    }
  }

  // ---------------------------------------------------------------- the stages of a session

  /** The plan a stage carries out, if it does anything. */
  function StagePlan(arena: Arena, origin: Origin, process: Process, op: Op): Option<Plan> {
    var Process(world, phase) := process;
    if arena.Expected().Err? then None
    else
      match op
      case Die => None
      case Initialize(now, contents, _) =>
        if phase.Down? && now < arena.span.endsAt then
          Some(InitializePlan(arena, Own(origin, world) != [], contents))
        else None
      case Recover(first, env, day, _) =>
        if phase.ChainReady? then Some(RecoverPlan(arena, world.risk, first, env, day)) else None
      case CatchUp(now, missing, resume, content, _) =>
        if !phase.StateReady? || DueCycleCount(arena.span, arena.cooldown, now).Err? then None
        else
          var due := DueCycleCount(arena.span, arena.cooldown, now).value;
          var finished := Max(phase.completed, due) >= arena.Expected().value;
          Some(CatchUpPlan(arena, phase.completed, due, missing, phase.risk,
                           ResumePlan(finished, resume, content, phase.risk)))
      case CycleTick(wake, _) =>
        if phase.Running? then Some(TickPlan(arena, phase.completed, wake, phase.risk)) else None
      case Lifecycle(control, content, _) =>
        if phase.Running? then Some(LifecyclePlan(ControlKind(control), content, phase.risk)) else None
  }

  function CutOf(op: Op): Option<nat> {
    if op.Die? then None else op.cut
  }

  /** A stage carries out its plan, and a session that lives on has carried it out to the end. */
  lemma StepIsCarry(arena: Arena, origin: Origin, process: Process, op: Op)
    ensures var plan, next := StagePlan(arena, origin, process, op), Step(arena, origin, process, op);
            match plan
            case None => next.world == process.world
            case Some(plan) =>
              var (world, finish) := Carry(origin, process.world, plan, CutOf(op));
              next.world == world && (!next.phase.Down? ==> finish.Ended?)
  {
    hide Carry, InitializePlan, RecoverPlan, CatchUpPlan, ResumePlan, LifecyclePlan, TickPlan,
         DueCycleCount, ExpectedCycleCount, Own, Cycles;
  }

  lemma InitializeDrafts(arena: Arena, started: bool, contents: StartContents)
    ensures Drafts(InitializePlan(arena, started, contents))
            == if started then []
               else [Told(None, RunStarted, contents.started)]
                    + (if arena.handoff then [Told(None, HandoffSnapshot, contents.handoff)] else [])
                    + [Told(None, RunPaused, contents.paused)]
  {
    var done := End(Prepared, UNLOADED);
    var paused := Then(Note(None, RunPaused, contents.paused), done);
    assert Drafts(done) == [];
    SilentAct(FlushFirst, done);
    SaidAct(None, RunPaused, contents.paused, done);
    SaidAct(None, HandoffSnapshot, contents.handoff, paused);
    SaidAct(None, RunStarted, contents.started,
            if arena.handoff then Then(Note(None, HandoffSnapshot, contents.handoff), paused) else paused);
  }

  lemma RecoverRecords(arena: Arena, held: Option<LiveRiskState>, first: FirstState, env: ReconcileEnv,
                       day: int)
    ensures var drafts := Drafts(RecoverPlan(arena, held, first, env, day));
            forall i :: 0 <= i < |drafts| ==>
              && drafts[i].cycleId.None?
              && OfReconciliation(drafts[i], env, arena.live.isolatedLeverage, Since(held, first))
  {
    hide ReconcilePlan, ValidInitialAccount, OfReconciliation;
    var leverage := arena.live.isolatedLeverage;
    if held.Some? {
      ReconcileRecords(leverage, None, env, day, held.value, false);
    } else if first.account.Some? && first.at.Some? {
      var risk := FirstRisk(first);
      ReconcileRecords(leverage, None, env, day, risk, false);
      SilentAct(StoreRisk(risk), ReconcilePlan(leverage, None, env, day, risk, false));
    }
  }

  lemma LifecycleDrafts(kind: Kind, content: Content, risk: LiveRiskState)
    ensures Drafts(LifecyclePlan(kind, content, risk)) == [Told(None, kind, content)]
  {
    assert Drafts(End(Completed(false), risk)) == [];
    SaidAct(None, kind, content, End(Completed(false), risk));
  }

  predicate Missed(drafts: seq<Draft>, arena: Arena, completed: nat, missing: nat -> Missing) {
    forall i :: 0 <= i < |drafts| ==> OfMissed(drafts[i], arena, completed + i, missing(completed + i))
  }

  lemma MissedDraft(arena: Arena, index: nat, missing: Missing, risk: LiveRiskState, rest: Plan)
    returns (draft: Draft)
    requires arena.Expected().Ok? && index < arena.Expected().value
    ensures Drafts(MissedPlan(arena, index, missing, risk, rest)) == [draft] + Drafts(rest)
    ensures OfMissed(draft, arena, index, missing)
  {
    hide ExpectedCycleCount, ScheduledCycleAt;
    EveryCycleFits(arena.span, arena.cooldown, index);
    draft := MissedPlan(arena, index, missing, risk, rest).act.draft;
  }

  lemma MissedOneMore(first: Draft, later: seq<Draft>, arena: Arena, completed: nat,
                      missing: nat -> Missing)
    requires OfMissed(first, arena, completed, missing(completed))
    requires Missed(later, arena, completed + 1, missing)
    ensures Missed([first] + later, arena, completed, missing)
  {
    hide OfMissed;
    var missed := [first] + later;
    forall i | 0 <= i < |missed|
      ensures OfMissed(missed[i], arena, completed + i, missing(completed + i))
    {
      if i > 0 {
        var k := i - 1;
        assert OfMissed(later[k], arena, completed + 1 + k, missing(completed + 1 + k));
        assert completed + 1 + k == completed + i;
      }
    }
  }

  /** Catching up records one missed event for each boundary from the counter to the due count, then
      what comes after. */
  lemma {:induction false} CatchUpDrafts(arena: Arena, completed: nat, due: nat,
                                         missing: nat -> Missing, risk: LiveRiskState, rest: Plan)
    returns (missed: seq<Draft>)
    requires arena.Expected().Ok? && due <= arena.Expected().value
    ensures Drafts(CatchUpPlan(arena, completed, due, missing, risk, rest)) == missed + Drafts(rest)
    ensures |missed| == Max(due - completed, 0) && Missed(missed, arena, completed, missing)
    decreases due - completed
  {
    hide ExpectedCycleCount, ScheduledCycleAt, MissedPlan, Missed, OfMissed, Drafts;
    if completed < due {
      var later := CatchUpDrafts(arena, completed + 1, due, missing, risk, rest);
      var next := CatchUpPlan(arena, completed + 1, due, missing, risk, rest);
      var first := MissedDraft(arena, completed, missing(completed), risk, next);
      MissedOneMore(first, later, arena, completed, missing);
      missed := [first] + later;
      assert missed + Drafts(rest) == [first] + (later + Drafts(rest));
    } else {
      missed := [];
      NothingMissed(arena, completed, missing);
      assert [] + Drafts(rest) == Drafts(rest);
    }
  }

  lemma NothingMissed(arena: Arena, completed: nat, missing: nat -> Missing)
    ensures Missed([], arena, completed, missing)
  {
  }

  lemma CatchUpRecords(arena: Arena, origin: Origin, process: Process, op: Op)
    requires op.CatchUp? && StagePlan(arena, origin, process, op).Some?
    ensures var drafts := Drafts(StagePlan(arena, origin, process, op).value);
            forall i :: 0 <= i < |drafts| ==> MayRecord(arena, process, op, drafts[i])
  {
    hide ExpectedCycleCount, DueCycleCount, CatchUpPlan, LifecyclePlan, OfMissed;
    DueWithinSchedule(arena, op.now);
    var due := DueCycleCount(arena.span, arena.cooldown, op.now).value;
    var completed, risk := process.phase.completed, process.phase.risk;
    var finished := Max(completed, due) >= arena.Expected().value;
    var rest := ResumePlan(finished, op.resume, op.content, risk);
    LifecycleDrafts(RunStopped, op.content, risk);
    LifecycleDrafts(RunResumed, op.content, risk);
    assert Drafts(End(Completed(false), risk)) == [];
    var missed := CatchUpDrafts(arena, completed, due, op.missing, risk, rest);
    var drafts := missed + Drafts(rest);
    forall i | 0 <= i < |drafts| ensures MayRecord(arena, process, op, drafts[i]) {
      if i < |missed| {
        assert OfMissed(drafts[i], arena, completed + i, op.missing(completed + i));
      } else {
        assert drafts[i] == Drafts(rest)[i - |missed|];
      }
    }
  }

  lemma TickRecords(arena: Arena, origin: Origin, process: Process, op: Op)
    requires op.CycleTick? && StagePlan(arena, origin, process, op).Some?
    ensures var drafts := Drafts(StagePlan(arena, origin, process, op).value);
            forall i :: 0 <= i < |drafts| ==> MayRecord(arena, process, op, drafts[i])
  {
    hide ExpectedCycleCount, CyclePlan, LifecyclePlan, OfCycle, ScheduledCycleAt;
    var completed, risk, wake := process.phase.completed, process.phase.risk, op.wake;
    LifecycleDrafts(RunStopped, wake.content, risk);
    CycleRecords(arena.live, wake.env, risk);
    assert Drafts(End(Completed(false), risk)) == [];
  }

  lemma InitializeRecords(arena: Arena, origin: Origin, process: Process, op: Op)
    requires op.Initialize? && StagePlan(arena, origin, process, op).Some?
    ensures var drafts := Drafts(StagePlan(arena, origin, process, op).value);
            forall i :: 0 <= i < |drafts| ==> MayRecord(arena, process, op, drafts[i])
  {
    hide InitializePlan, ExpectedCycleCount, Own;
    InitializeDrafts(arena, Own(origin, process.world) != [], op.contents);
  }

  lemma RecoverStageRecords(arena: Arena, origin: Origin, process: Process, op: Op)
    requires op.Recover? && StagePlan(arena, origin, process, op).Some?
    ensures var drafts := Drafts(StagePlan(arena, origin, process, op).value);
            forall i :: 0 <= i < |drafts| ==> MayRecord(arena, process, op, drafts[i])
  {
    hide RecoverPlan, ExpectedCycleCount, OfReconciliation;
    RecoverRecords(arena, process.world.risk, op.first, op.env, op.day);
  }

  lemma LifecycleRecords(arena: Arena, origin: Origin, process: Process, op: Op)
    requires op.Lifecycle? && StagePlan(arena, origin, process, op).Some?
    ensures var drafts := Drafts(StagePlan(arena, origin, process, op).value);
            forall i :: 0 <= i < |drafts| ==> MayRecord(arena, process, op, drafts[i])
  {
    hide LifecyclePlan, ExpectedCycleCount;
    LifecycleDrafts(ControlKind(op.control), op.content, process.phase.risk);
  }

  /** No stage records anything else. */
  lemma StageRecords(arena: Arena, origin: Origin, process: Process, op: Op)
    requires StagePlan(arena, origin, process, op).Some?
    ensures var drafts := Drafts(StagePlan(arena, origin, process, op).value);
            forall i :: 0 <= i < |drafts| ==> MayRecord(arena, process, op, drafts[i])
  {
    NotWhenDead(arena, origin, process, op);
    hide StagePlan, MayRecord;
    match op {
      case Initialize(_, _, _) => InitializeRecords(arena, origin, process, op);
      case Recover(_, _, _, _) => RecoverStageRecords(arena, origin, process, op);
      case CatchUp(_, _, _, _, _) => CatchUpRecords(arena, origin, process, op);
      case CycleTick(_, _) => TickRecords(arena, origin, process, op);
      case Lifecycle(_, _, _) => LifecycleRecords(arena, origin, process, op);
      case Die =>
    }
  }

  lemma NotWhenDead(arena: Arena, origin: Origin, process: Process, op: Op)
    requires StagePlan(arena, origin, process, op).Some?
    ensures !op.Die?
  {
  }

  // ---------------------------------------------------------------- every event of a run

  /** A stage records its plan's events in order, all of them if the session lives on. */
  lemma StepTells(arena: Arena, origin: Origin, process: Process, op: Op)
    requires Settled(origin.crypto, process.world.wire)
    ensures var next, plan := Step(arena, origin, process, op), StagePlan(arena, origin, process, op);
            && Settled(origin.crypto, next.world.wire) && Hears(process.world.wire, next.world.wire)
            && match plan
               case None => next.world == process.world
               case Some(plan) =>
                 var own, later := Own(origin, process.world), Own(origin, next.world);
                 && Tells(origin, own, later, Drafts(plan))
                 && (!next.phase.Down? ==> TellsAll(origin, own, later, Drafts(plan)))
  {
    hide Carry, Settled, Own, Tells, TellsAll, Hears, StagePlan, Step;
    StepIsCarry(arena, origin, process, op);
    var plan := StagePlan(arena, origin, process, op);
    if plan.Some? {
      CarryTells(origin, process.world, plan.value, CutOf(op));
    } else {
      NothingTold(origin, process.world);
    }
  }

  lemma {:induction false} RunHears(arena: Arena, origin: Origin, world: World, ops: seq<Op>)
    requires Settled(origin.crypto, world.wire)
    ensures var after := AfterOps(arena, origin, Process(world, Down), ops).world;
            Settled(origin.crypto, after.wire) && Hears(world.wire, after.wire)
  {
    hide Step, Settled, Hears, StagePlan;
    if ops == [] {
      NothingTold(origin, world);
    } else {
      var n := |ops| - 1;
      RunHears(arena, origin, world, ops[..n]);
      var before := AfterOps(arena, origin, Process(world, Down), ops[..n]);
      StepTells(arena, origin, before, ops[n]);
      HearsOnward(world.wire, before.world.wire,
                  AfterOps(arena, origin, Process(world, Down), ops).world.wire);
    }
  }

  /** The stage at place `j` recorded the event at place `i` of the run: it was there after the stage and
      not before, it carries this run's and this identity's marks, and the stage may record it. */
  ghost predicate RecordedBy(arena: Arena, origin: Origin, world: World, ops: seq<Op>, i: nat, j: nat)
    requires j < |ops|
  {
    var start := Process(world, Down);
    var before := AfterOps(arena, origin, start, ops[..j]);
    var after := AfterOps(arena, origin, start, ops[..j + 1]);
    var own := Own(origin, AfterOps(arena, origin, start, ops).world);
    && |Own(origin, before.world)| <= i < |Own(origin, after.world)| && i < |own|
    && exists draft :: Carries(origin, own[i].envelope, draft) && MayRecord(arena, before, ops[j], draft)
  }

  /** Every event of a run was recorded by one of its stages, which may record it. */
  lemma {:induction false} EveryEventHasItsStage(arena: Arena, origin: Origin, world: World,
                                                 ops: seq<Op>, i: nat)
    requires Settled(origin.crypto, world.wire) && Own(origin, world) == []
    requires i < |Own(origin, AfterOps(arena, origin, Process(world, Down), ops).world)|
    ensures exists j :: 0 <= j < |ops| && RecordedBy(arena, origin, world, ops, i, j)
  {
    hide Step, Settled, Hears, StagePlan, MayRecord, Carries, RunRows;
    var start := Process(world, Down);
    var n := |ops| - 1;
    var before, after := AfterOps(arena, origin, start, ops[..n]), AfterOps(arena, origin, start, ops);
    var own, later := Own(origin, before.world), Own(origin, after.world);
    RunHears(arena, origin, world, ops[..n]);
    StepTells(arena, origin, before, ops[n]);
    if i < |own| {
      EveryEventHasItsStage(arena, origin, world, ops[..n], i);
      var j :| 0 <= j < n && RecordedBy(arena, origin, world, ops[..n], i, j);
      assert ops[..n][..j] == ops[..j] && ops[..n][..j + 1] == ops[..j + 1];
      StepContinues(arena, origin, before, ops[n]);
      assert later[i].envelope == own[i].envelope;
      assert RecordedBy(arena, origin, world, ops, i, j);
    } else {
      var plan := StagePlan(arena, origin, before, ops[n]).value;
      StageRecords(arena, origin, before, ops[n]);
      var draft := Drafts(plan)[i - |own|];
      assert Carries(origin, later[i].envelope, draft) && MayRecord(arena, before, ops[n], draft);
      assert ops[..n + 1] == ops;
      assert RecordedBy(arena, origin, world, ops, i, n);
    }
  }

  lemma StepContinues(arena: Arena, origin: Origin, process: Process, op: Op)
    requires Settled(origin.crypto, process.world.wire)
    ensures Continues(Own(origin, process.world),
                      Own(origin, Step(arena, origin, process, op).world))
  {
    hide Step, Settled, Hears, StagePlan, RunRows;
    StepTells(arena, origin, process, op);
    SameRows(process.world.wire);
  }

  // ---------------------------------------------------------------- receipts of a run

  /** Every receipt a run leaves in the journal was there before, or is what the sink said to a delivery
      of that very event during the run. */
  lemma ReceiptsAreTheSinks(arena: Arena, origin: Origin, world: World, ops: seq<Op>)
    requires Settled(origin.crypto, world.wire)
    ensures var after := AfterOps(arena, origin, Process(world, Down), ops).world.wire;
            && world.wire.met <= after.met
            && var met := after.met[|world.wire.met|..];
               && world.wire.script == Replies(met) + after.script
               && AllStored(after.rows, met)
               && forall row :: row in after.rows && row.receipt.Some? && row !in world.wire.rows ==>
                    Gave(met, row.envelope, row.receipt.value)
  {
    hide AfterOps, Settled;
    RunHears(arena, origin, world, ops);
  }
}
