/** What the risk state remembers over a run: the highest equity any session saw, and the equity each day
    began with. */
module RiskMemory {
  import opened Arithmetic
  import opened Policy
  import opened Book
  import opened Market
  import opened Events
  import opened Journal
  import opened Writer
  import opened Schedule
  import opened Live
  import opened LiveTheorems
  import opened Session
  import opened SessionTheorems
  import opened Trace

  // ---------------------------------------------------------------- remembering equities

  /** An account's equity, seen on a day. */
  datatype Sight = Sight(day: int, equity: i64)

  /** The peak is the highest equity of the base and everything seen since. */
  predicate Peaks(base: LiveRiskState, sights: seq<Sight>, risk: LiveRiskState) {
    && base.peakEquity <= risk.peakEquity
    && (forall k :: 0 <= k < |sights| ==> sights[k].equity <= risk.peakEquity)
    && (risk.peakEquity == base.peakEquity
        || exists k :: 0 <= k < |sights| && sights[k].equity == risk.peakEquity)
  }

  /** The day before the sight at place `k`. */
  function DayBefore(base: LiveRiskState, sights: seq<Sight>, k: nat): int
    requires k <= |sights|
  {
    if k == 0 then base.tradingDay else sights[k - 1].day
  }

  /** The trading day began with the sight at place `k`, and everything since was seen on that day. */
  predicate BeganAt(base: LiveRiskState, sights: seq<Sight>, risk: LiveRiskState, k: nat)
    requires k < |sights|
  {
    && DayBefore(base, sights, k) != risk.tradingDay
    && risk.dayStartEquity == sights[k].equity
    && forall i :: k <= i < |sights| ==> sights[i].day == risk.tradingDay
  }

  /** The day's starting equity is the first equity seen on the trading day, or the base's if the day has
      not changed since. */
  predicate Begins(base: LiveRiskState, sights: seq<Sight>, risk: LiveRiskState) {
    || (&& risk.tradingDay == base.tradingDay && risk.dayStartEquity == base.dayStartEquity
        && forall i :: 0 <= i < |sights| ==> sights[i].day == risk.tradingDay)
    || exists k :: 0 <= k < |sights| && BeganAt(base, sights, risk, k)
  }

  predicate Remembers(base: LiveRiskState, sights: seq<Sight>, risk: LiveRiskState) {
    Peaks(base, sights, risk) && Begins(base, sights, risk)
  }

  lemma RemembersItself(risk: LiveRiskState)
    ensures Remembers(risk, [], risk)
  {
  }

  /** Counting an order or moving the reconciliation time changes nothing that is remembered. */
  lemma RemembersSame(base: LiveRiskState, sights: seq<Sight>, risk: LiveRiskState, later: LiveRiskState)
    requires Remembers(base, sights, risk)
    requires later == risk.(ordersToday := later.ordersToday,
                            lastReconciliationMs := later.lastReconciliationMs)
    ensures Remembers(base, sights, later)
  {
    if !(risk.tradingDay == base.tradingDay && risk.dayStartEquity == base.dayStartEquity
         && forall i :: 0 <= i < |sights| ==> sights[i].day == risk.tradingDay) {
      var k :| 0 <= k < |sights| && BeganAt(base, sights, risk, k);
      assert BeganAt(base, sights, later, k);
    }
  }

  lemma LastDay(base: LiveRiskState, sights: seq<Sight>, risk: LiveRiskState)
    requires Begins(base, sights, risk)
    ensures risk.tradingDay == DayBefore(base, sights, |sights|)
  {
  }

  /** An update remembers the account it sees. */
  lemma UpdateRemembers(base: LiveRiskState, sights: seq<Sight>, risk: LiveRiskState,
                        account: AccountSnapshot, day: int)
    requires Remembers(base, sights, risk)
    ensures Remembers(base, sights + [Sight(day, account.equity)], UpdateRiskState(risk, account, day))
  {
    var later, longer := UpdateRiskState(risk, account, day), sights + [Sight(day, account.equity)];
    assert longer[|sights|] == Sight(day, account.equity);
    assert forall i :: 0 <= i < |sights| ==> longer[i] == sights[i];
    LastDay(base, sights, risk);
    assert Peaks(base, longer, later) by {
      if later.peakEquity == risk.peakEquity && risk.peakEquity != base.peakEquity {
        var k :| 0 <= k < |sights| && sights[k].equity == risk.peakEquity;
        assert longer[k].equity == later.peakEquity;
      }
    }
    if risk.tradingDay != day {
      assert BeganAt(base, longer, later, |sights|);
    } else if !(risk.tradingDay == base.tradingDay && risk.dayStartEquity == base.dayStartEquity
                && forall i :: 0 <= i < |sights| ==> sights[i].day == risk.tradingDay) {
      var k :| 0 <= k < |sights| && BeganAt(base, sights, risk, k);
      assert BeganAt(base, longer, later, k);
    }
  }

  /** What was remembered of a base that itself remembers. */
  lemma RemembersOnward(base: LiveRiskState, first: seq<Sight>, middle: LiveRiskState,
                        second: seq<Sight>, risk: LiveRiskState)
    requires Remembers(base, first, middle) && Remembers(middle, second, risk)
    ensures Remembers(base, first + second, risk)
  {
    PeaksOnward(base, first, middle, second, risk);
    BeginsOnward(base, first, middle, second, risk);
  }

  lemma PeaksOnward(base: LiveRiskState, first: seq<Sight>, middle: LiveRiskState, second: seq<Sight>,
                    risk: LiveRiskState)
    requires Peaks(base, first, middle) && Peaks(middle, second, risk)
    ensures Peaks(base, first + second, risk)
  {
    var whole := first + second;
    if risk.peakEquity != middle.peakEquity {
      var k :| 0 <= k < |second| && second[k].equity == risk.peakEquity;
      assert whole[|first| + k].equity == risk.peakEquity;
    } else if middle.peakEquity != base.peakEquity {
      var k :| 0 <= k < |first| && first[k].equity == middle.peakEquity;
      assert whole[k].equity == risk.peakEquity;
    }
  }

  lemma BeginsOnward(base: LiveRiskState, first: seq<Sight>, middle: LiveRiskState, second: seq<Sight>,
                     risk: LiveRiskState)
    requires Begins(base, first, middle) && Begins(middle, second, risk)
    ensures Begins(base, first + second, risk)
  {
    var whole := first + second;
    LastDay(base, first, middle);
    assert forall i :: 0 <= i < |first| ==> whole[i] == first[i];
    assert forall i :: 0 <= i < |second| ==> whole[|first| + i] == second[i];
    if k :| 0 <= k < |second| && BeganAt(middle, second, risk, k) {
      assert BeganAt(base, whole, risk, |first| + k);
    } else if k :| 0 <= k < |first| && BeganAt(base, first, middle, k) {
      assert BeganAt(base, whole, risk, k);
    }
  }

  // ---------------------------------------------------------------- what a plan stores

  /** The risk states a plan stores, in order. */
  function Stores(plan: Plan): seq<LiveRiskState>
    decreases plan
  {
    match plan
    case End(_, _) => []
    case Then(act, rest) => (if act.StoreRisk? then [act.state] else []) + Stores(rest)
  }

  /** A plan leaves what it found or one of the states it stores; carried out, the last of them. */
  lemma {:induction false} PlanStores(origin: Origin, world: World, plan: Plan)
    ensures var (after, finish) := Perform(origin, world, plan);
            && (after.risk == world.risk || (after.risk.Some? && after.risk.value in Stores(plan)))
            && (finish.Ended? ==>
                  && finish.ending == EndingOf(plan) && finish.risk == RiskOf(plan)
                  && after.risk == StoredBy(plan, world.risk))
    decreases plan
  {
    hide Append, Flush;
    if plan.Then? {
      var (next, outcome) := DoAct(origin, world, plan.act);
      if outcome == Done {
        PlanStores(origin, next, plan.rest);
      }
    }
  }

  lemma {:induction false} CutPlanStores(origin: Origin, world: World, plan: Plan, count: nat)
    ensures var after := PerformFirst(origin, world, plan, count);
            after.risk == world.risk || (after.risk.Some? && after.risk.value in Stores(plan))
    decreases plan
  {
    hide Append, Flush;
    if count > 0 && plan.Then? {
      var (next, outcome) := DoAct(origin, world, plan.act);
      if outcome == Done {
        CutPlanStores(origin, next, plan.rest, count - 1);
      }
    }
  }

  lemma CarryStores(origin: Origin, world: World, plan: Plan, cut: Option<nat>)
    ensures var (after, finish) := Carry(origin, world, plan, cut);
            && (after.risk == world.risk || (after.risk.Some? && after.risk.value in Stores(plan)))
            && (finish.Ended? ==>
                  && finish.ending == EndingOf(plan) && finish.risk == RiskOf(plan)
                  && after.risk == StoredBy(plan, world.risk))
  {
    hide Perform, PerformFirst;
    match cut {
      case None => PlanStores(origin, world, plan);
      case Some(count) => CutPlanStores(origin, world, plan, count);
    }
  }

  lemma NotStoring(act: Act, rest: Plan)
    requires !act.StoreRisk?
    ensures var plan := Then(act, rest);
            && Stores(plan) == Stores(rest) && RiskOf(plan) == RiskOf(rest)
            && EndingOf(plan) == EndingOf(rest)
            && forall held :: StoredBy(plan, held) == StoredBy(rest, held)
  {
    assert [] + Stores(rest) == Stores(rest);
  }

  lemma Storing(state: LiveRiskState, rest: Plan)
    ensures var plan := Then(StoreRisk(state), rest);
            && Stores(plan) == [state] + Stores(rest) && RiskOf(plan) == RiskOf(rest)
            && EndingOf(plan) == EndingOf(rest)
            && forall held :: StoredBy(plan, held) == StoredBy(rest, Some(state))
  {
  }

  /** A plan for a session that holds `risk`: every state it stores remembers what it held and a first
      part of what is seen, under the time it held or that of an answered reconciliation; and if the
      session lives on, what it then holds is stored and remembers all that is seen. */
  ghost predicate Minds(plan: Plan, risk: LiveRiskState, held: Option<LiveRiskState>, some: seq<Sight>,
                        all: seq<Sight>, at: Option<u64>)
  {
    && (forall state :: state in Stores(plan) ==>
          && RemembersPart(risk, all, state)
          && (state.lastReconciliationMs == risk.lastReconciliationMs
              || at == Some(state.lastReconciliationMs)))
    && (Survives(EndingOf(plan)) ==>
          StoredBy(plan, held) == Some(RiskOf(plan)) && Remembers(risk, some, RiskOf(plan)))
  }

  predicate RemembersPart(risk: LiveRiskState, all: seq<Sight>, state: LiveRiskState) {
    exists n :: 0 <= n <= |all| && Remembers(risk, all[..n], state)
  }

  /** The time of a reconciliation both of whose questions were answered, for a healthy account. */
  function AnsweredAt(env: ReconcileEnv, leverage: u8): Option<u64> {
    if Answered(env, leverage) then env.at else None
  }

  /** A cycle reconciles once the venue has accepted its order. */
  function CycleAnswered(config: LiveConfig, env: CycleEnv): Option<u64> {
    if env.dispatch.accepted then AnsweredAt(env.reconcile, config.isolatedLeverage) else None
  }

  function SightOf(day: int, account: Option<AccountSnapshot>): Sight {
    Sight(day, if account.Some? then account.value.equity else 0)
  }

  lemma ReconcileMinds(leverage: u8, cycleId: Option<nat>, env: ReconcileEnv, day: int,
                       risk: LiveRiskState, submitted: bool, held: Option<LiveRiskState>)
    ensures var sights := [SightOf(day, env.account)];
            Minds(ReconcilePlan(leverage, cycleId, env, day, risk, submitted), risk, held, sights, sights,
                  AnsweredAt(env, leverage))
    ensures ReconcilePlan(leverage, cycleId, env, day, risk, submitted).Then? <==> Answered(env, leverage)
  {
    hide ValidAccount, Healthy, UpdateRiskState, Remembers;
    var plan := ReconcilePlan(leverage, cycleId, env, day, risk, submitted);
    if env.account.Some? {
      HealthyIsValid(env.account.value, leverage);
    }
    if plan.Then? {
      var moved := risk.(lastReconciliationMs := env.at.value);
      var later := AfterReconcile(risk, env, day);
      RemembersItself(risk);
      RemembersSame(risk, [], risk, moved);
      UpdateRemembers(risk, [], moved, env.account.value, day);
      UpdatedTime(moved, env.account.value, day);
      var sights := [Sight(day, env.account.value.equity)];
      assert [] + sights == sights && sights[..1] == sights;
      var store := plan.rest.rest.rest.rest;
      Storing(later, store.rest);
      NotStoring(plan.rest.rest.rest.act, store);
      NotStoring(plan.rest.rest.act, plan.rest.rest.rest);
      NotStoring(plan.rest.act, plan.rest.rest);
      NotStoring(plan.act, plan.rest);
      assert RemembersPart(risk, sights, later);
    }
  }

  lemma PartOnward(base: LiveRiskState, first: seq<Sight>, middle: LiveRiskState, all: seq<Sight>,
                   state: LiveRiskState)
    requires Remembers(base, first, middle) && RemembersPart(middle, all, state)
    ensures RemembersPart(base, first + all, state)
  {
    hide Remembers;
    var n :| 0 <= n <= |all| && Remembers(middle, all[..n], state);
    RemembersOnward(base, first, middle, all[..n], state);
    assert (first + all)[..|first| + n] == first + all[..n];
  }

  /** A plan that goes on from a state that remembers something remembers that too. */
  lemma MindsOnward(plan: Plan, base: LiveRiskState, first: seq<Sight>, middle: LiveRiskState,
                    held: Option<LiveRiskState>, some: seq<Sight>, all: seq<Sight>, at: Option<u64>)
    requires Remembers(base, first, middle)
    requires base.lastReconciliationMs == middle.lastReconciliationMs
    requires Minds(plan, middle, held, some, all, at)
    ensures Minds(plan, base, held, first + some, first + all, at)
  {
    hide Remembers, RemembersPart, Stores, StoredBy, RiskOf, EndingOf;
    forall state | state in Stores(plan) ensures RemembersPart(base, first + all, state) {
      PartOnward(base, first, middle, all, state);
    }
    if Survives(EndingOf(plan)) {
      RemembersOnward(base, first, middle, some, RiskOf(plan));
    }
  }

  lemma MindsQuietly(act: Act, rest: Plan, risk: LiveRiskState, held: Option<LiveRiskState>,
                     some: seq<Sight>, all: seq<Sight>, at: Option<u64>)
    requires !act.StoreRisk? && Minds(rest, risk, held, some, all, at)
    ensures Minds(Then(act, rest), risk, held, some, all, at)
  {
    hide Remembers, RemembersPart, Stores, StoredBy, RiskOf, EndingOf;
    NotStoring(act, rest);
  }

  lemma MindsStoring(state: LiveRiskState, rest: Plan, risk: LiveRiskState, held: Option<LiveRiskState>,
                     some: seq<Sight>, all: seq<Sight>, at: Option<u64>)
    requires Minds(rest, risk, Some(state), some, all, at) && RemembersPart(risk, all, state)
    requires state.lastReconciliationMs == risk.lastReconciliationMs
    ensures Minds(Then(StoreRisk(state), rest), risk, held, some, all, at)
  {
    hide Remembers, RemembersPart, Stores, StoredBy, RiskOf, EndingOf;
    Storing(state, rest);
  }

  lemma MindsEnding(ending: Ending, state: LiveRiskState, risk: LiveRiskState,
                    held: Option<LiveRiskState>, some: seq<Sight>, all: seq<Sight>, at: Option<u64>)
    requires Survives(ending) ==> held == Some(state) && Remembers(risk, some, state)
    ensures Minds(End(ending, state), risk, held, some, all, at)
  {
    hide Remembers;
  }

  lemma NoPart(risk: LiveRiskState, all: seq<Sight>, state: LiveRiskState)
    requires Remembers(risk, [], state)
    ensures RemembersPart(risk, all, state)
  {
    hide Remembers;
    assert all[..0] == [];
  }

  lemma DeclinedMinds(env: CycleEnv, risk: LiveRiskState, held: Option<LiveRiskState>, all: seq<Sight>,
                      at: Option<u64>)
    ensures Minds(Declined(env, risk), risk, held, [], all, at)
  {
    hide Remembers, RemembersPart, Minds;
    var plan := Declined(env, risk);
    RemembersItself(risk);
    NoPart(risk, all, risk);
    MindsEnding(Completed(false), risk, risk, Some(risk), [], all, at);
    MindsStoring(risk, plan.rest.rest, risk, held, [], all, at);
    MindsQuietly(plan.act, plan.rest, risk, held, [], all, at);
  }

  lemma DispatchMinds(config: LiveConfig, env: CycleEnv, order: OrderDecision, basis: Basis,
                      held: Option<LiveRiskState>)
    ensures var sights := [SightOf(env.day, env.reconcile.account)];
            Minds(DispatchPlan(config, env, order, basis), basis.risk, held, sights, sights,
                  CycleAnswered(config, env))
  {
    hide Remembers, RemembersPart, Minds, ReconcilePlan, AnsweredAt;
    var at := CycleAnswered(config, env);
    var sights := [SightOf(env.day, env.reconcile.account)];
    var plan := DispatchPlan(config, env, order, basis);
    var risk, later := basis.risk, Counted(basis.risk);
    RemembersItself(risk);
    RemembersSame(risk, [], risk, later);
    var store := plan.rest.rest;
    var tail := store.rest.rest;
    if env.dispatch.accepted {
      ReconcileMinds(config.isolatedLeverage, Some(env.cycleId), env.reconcile, env.day, later, true,
                     Some(later));
      MindsOnward(tail.rest, risk, [], later, Some(later), sights, sights, at);
      assert [] + sights == sights;
      MindsQuietly(tail.act, tail.rest, risk, Some(later), sights, sights, at);
    } else {
      MindsEnding(VenueFailed, later, risk, Some(later), sights, sights, at);
    }
    MindsQuietly(store.rest.act, tail, risk, Some(later), sights, sights, at);
    NoPart(risk, sights, later);
    MindsStoring(later, store.rest, risk, held, sights, sights, at);
    MindsQuietly(plan.rest.act, store, risk, held, sights, sights, at);
    MindsQuietly(plan.act, plan.rest, risk, held, sights, sights, at);
  }

  /** What is seen when the order's venue has been asked, if it is sent. */
  function SeenAfter(env: CycleEnv, sent: bool): seq<Sight> {
    if sent then [SightOf(env.day, env.reconcile.account)] else []
  }

  lemma OrderMinds(config: LiveConfig, env: CycleEnv, basis: Basis, held: Option<LiveRiskState>)
    requires basis.view.Usable()
    ensures var plan := OrderPlan(config, env, basis);
            Minds(plan, basis.risk, held, SeenAfter(env, Sendings(plan) != []), SeenAfter(env, true),
                  CycleAnswered(config, env))
  {
    hide DispatchPlan, Declined, Verdict, MarketableLimit, BookSnapshot.HasTop, MarketView.Usable,
         Remembers, Minds, CycleAnswered;
    var plan, at := OrderPlan(config, env, basis), CycleAnswered(config, env);
    OrderSendsIff(config, env, basis);
    if !Askable(config, basis) {
      MindsEnding(plan.ending, plan.risk, basis.risk, held, SeenAfter(env, Sendings(plan) != []),
                  SeenAfter(env, true), at);
    } else if Verdict(config, basis).Ok? && env.dispatch.permitted {
      DispatchMinds(config, env, Verdict(config, basis).value, basis, held);
    } else {
      DeclinedMinds(env, basis.risk, held, SeenAfter(env, true), at);
    }
  }

  /** What is seen after a decision: the account refreshed for a proposal, and after an order. */
  function SeenNext(env: CycleEnv, sent: bool): seq<Sight> {
    if env.decision.Decided? && env.decision.proposal.Some? then
      [SightOf(env.day, env.dispatch.account)] + SeenAfter(env, sent)
    else []
  }

  lemma ProposalMinds(config: LiveConfig, env: CycleEnv, proposal: Proposal, risk: LiveRiskState,
                      held: Option<LiveRiskState>)
    requires env.decision.Decided? && env.decision.proposal == Some(proposal)
    ensures var plan := ProposalPlan(config, env, proposal, risk);
            Minds(plan, risk, held, SeenNext(env, Sendings(plan) != []), SeenNext(env, true),
                  CycleAnswered(config, env))
  {
    hide OrderPlan, UpdateRiskState, ValidAccount, MarketView.Usable, ObservedView, Remembers, Minds,
         CycleAnswered, SeenAfter;
    var plan := ProposalPlan(config, env, proposal, risk);
    var at := CycleAnswered(config, env);
    if plan.End? {
      MindsEnding(plan.ending, plan.risk, risk, held, SeenNext(env, Sendings(plan) != []),
                  SeenNext(env, true), at);
    } else {
      var account := env.dispatch.account.value;
      var dated := UpdateRiskState(risk, account, env.day);
      var basis := Basis(account, ObservedView(env.dispatch), proposal, dated);
      var seen := [Sight(env.day, account.equity)];
      RemembersItself(risk);
      UpdateRemembers(risk, [], risk, account, env.day);
      assert [] + seen == seen;
      UpdatedTime(risk, account, env.day);
      OrderMinds(config, env, basis, held);
      QuietAct(plan.act, plan.rest);
      MindsOnward(plan.rest, risk, seen, dated, held, SeenAfter(env, Sendings(plan) != []),
                  SeenAfter(env, true), at);
      MindsQuietly(plan.act, plan.rest, risk, held, SeenNext(env, Sendings(plan) != []),
                   SeenNext(env, true), at);
    }
  }

  lemma {:induction false} ReceiptsMind(env: CycleEnv, receipts: seq<Content>, rest: Plan,
                                        risk: LiveRiskState, held: Option<LiveRiskState>,
                                        some: seq<Sight>, all: seq<Sight>, at: Option<u64>)
    requires Minds(rest, risk, held, some, all, at)
    ensures Minds(ReceiptPlan(env, receipts, rest), risk, held, some, all, at)
    decreases |receipts|
  {
    hide Minds;
    if receipts != [] {
      ReceiptsMind(env, receipts[1..], rest, risk, held, some, all, at);
      MindsQuietly(Note(Some(env.cycleId), InferenceReceipt, receipts[0]),
                   ReceiptPlan(env, receipts[1..], rest), risk, held, some, all, at);
    }
  }

  lemma DecisionMinds(config: LiveConfig, env: CycleEnv, risk: LiveRiskState, held: Option<LiveRiskState>)
    ensures var plan := DecisionPlan(config, env, risk);
            Minds(plan, risk, held, SeenNext(env, Sendings(plan) != []), SeenNext(env, true),
                  CycleAnswered(config, env))
  {
    hide ProposalPlan, Declined, ReceiptPlan, Remembers, Minds, CycleAnswered, SeenAfter;
    var plan, at := DecisionPlan(config, env, risk), CycleAnswered(config, env);
    match env.decision {
      case Failed =>
        RemembersItself(risk);
        NoPart(risk, [], risk);
        MindsEnding(ModelFailed, risk, risk, Some(risk), [], [], at);
        MindsStoring(risk, plan.rest.rest, risk, held, [], [], at);
        MindsQuietly(plan.act, plan.rest, risk, held, [], [], at);
      case Decided(receipts, proposal) =>
        var decided := DecidedPlan(config, env, proposal, risk);
        if proposal.None? {
          DeclinedMinds(env, risk, held, [], at);
        } else {
          ProposalMinds(config, env, proposal.value, risk, held);
        }
        QuietAct(decided.act, decided.rest);
        ReceiptsCountNothing(env, receipts, decided);
        MindsQuietly(decided.act, decided.rest, risk, held, SeenNext(env, Sendings(plan) != []),
                     SeenNext(env, true), at);
        ReceiptsMind(env, receipts, decided, risk, held, SeenNext(env, Sendings(plan) != []),
                     SeenNext(env, true), at);
    }
  }

  /** Every equity a cycle that lives on sees: its first account, the account refreshed for a proposal,
      and the account reconciled after an order. */
  function Seen(env: CycleEnv, sent: bool): seq<Sight> {
    [SightOf(env.day, env.account)] + SeenNext(env, sent)
  }

  lemma CycleMinds(config: LiveConfig, env: CycleEnv, risk: LiveRiskState, held: Option<LiveRiskState>)
    ensures var plan := CyclePlan(config, env, risk);
            Minds(plan, risk, held, Seen(env, Sendings(plan) != []), Seen(env, true),
                  CycleAnswered(config, env))
  {
    hide DecisionPlan, UpdateRiskState, ValidAccount, Remembers, Minds, CycleAnswered, SeenNext;
    var plan, at := CyclePlan(config, env, risk), CycleAnswered(config, env);
    if plan.End? {
      MindsEnding(plan.ending, plan.risk, risk, held, Seen(env, Sendings(plan) != []), Seen(env, true),
                  at);
    } else {
      var account := env.account.value;
      var dated := UpdateRiskState(risk, account, env.day);
      var seen := [Sight(env.day, account.equity)];
      RemembersItself(risk);
      UpdateRemembers(risk, [], risk, account, env.day);
      assert [] + seen == seen;
      UpdatedTime(risk, account, env.day);
      DecisionMinds(config, env, dated, held);
      var third := plan.rest.rest.rest;
      QuietAct(third.act, third.rest);
      QuietAct(plan.rest.rest.act, third);
      QuietAct(plan.rest.act, plan.rest.rest);
      QuietAct(plan.act, plan.rest);
      var some, all := Seen(env, Sendings(plan) != []), Seen(env, true);
      MindsOnward(third.rest, risk, seen, dated, held, SeenNext(env, Sendings(plan) != []),
                  SeenNext(env, true), at);
      MindsQuietly(third.act, third.rest, risk, held, some, all, at);
      MindsQuietly(plan.rest.rest.act, third, risk, held, some, all, at);
      MindsQuietly(plan.rest.act, plan.rest.rest, risk, held, some, all, at);
      MindsQuietly(plan.act, plan.rest, risk, held, some, all, at);
    }
  }

  // ---------------------------------------------------------------- what a stage of a session minds

  lemma RecoverMinds(arena: Arena, held: LiveRiskState, first: FirstState, env: ReconcileEnv, day: int)
    ensures var sights := [SightOf(day, env.account)];
            Minds(RecoverPlan(arena, Some(held), first, env, day), held, Some(held), sights, sights,
                  AnsweredAt(env, arena.live.isolatedLeverage))
  {
    hide Minds, ReconcilePlan, AnsweredAt;
    ReconcileMinds(arena.live.isolatedLeverage, None, env, day, held, false, Some(held));
  }

  /** The state a run's first session stores: the day, the equity of its account, and the time. */
  predicate StartsWith(arena: Arena, first: FirstState, risk: LiveRiskState) {
    && first.account.Some? && first.at.Some?
    && var account := first.account.value;
       && (if arena.exactCapital then
             && account.equity == arena.live.startingCapital == account.withdrawable
             && account.positions == map[]
           else account.equity > 0)
       && risk.tradingDay == first.day && risk.lastReconciliationMs == first.at.value
       && risk.dayStartEquity == account.equity == risk.peakEquity && risk.ordersToday == 0
  }

  /** A first recovery stores nothing, or a first state and what it goes on to. */
  lemma FirstMinds(arena: Arena, first: FirstState, env: ReconcileEnv, day: int)
    returns (risk: Option<LiveRiskState>)
    ensures var plan, sights := RecoverPlan(arena, None, first, env, day), [SightOf(day, env.account)];
            match risk
            case None => Stores(plan) == [] && !Survives(EndingOf(plan))
            case Some(risk) =>
              && StartsWith(arena, first, risk)
              && Minds(plan, risk, None, sights, sights, AnsweredAt(env, arena.live.isolatedLeverage))
  {
    hide Minds, ReconcilePlan, AnsweredAt, Remembers;
    var plan, leverage := RecoverPlan(arena, None, first, env, day), arena.live.isolatedLeverage;
    risk := None;
    if plan.Then? {
      var state := FirstRisk(first);
      risk := Some(state);
      var sights := [SightOf(day, env.account)];
      ReconcileMinds(leverage, None, env, day, state, false, Some(state));
      RemembersItself(state);
      NoPart(state, sights, state);
      MindsStoring(state, plan.rest, state, None, sights, sights, AnsweredAt(env, leverage));
    }
  }

  /** A plan that keeps what is stored and in memory. */
  ghost predicate Leaves(plan: Plan, risk: LiveRiskState) {
    Minds(plan, risk, Some(risk), [], [], None)
  }

  lemma EndLeaves(risk: LiveRiskState, ending: Ending)
    ensures Leaves(End(ending, risk), risk)
  {
    hide Minds, Remembers;
    RemembersItself(risk);
    MindsEnding(ending, risk, risk, Some(risk), [], [], None);
  }

  lemma LifecycleLeaves(kind: Kind, content: Content, risk: LiveRiskState)
    ensures Leaves(LifecyclePlan(kind, content, risk), risk)
  {
    hide Minds;
    EndLeaves(risk, Completed(false));
    MindsQuietly(Note(None, kind, content), End(Completed(false), risk), risk, Some(risk), [], [], None);
  }

  lemma ResumeLeaves(finished: bool, resume: bool, content: Content, risk: LiveRiskState)
    ensures Leaves(ResumePlan(finished, resume, content, risk), risk)
  {
    hide Leaves, LifecyclePlan;
    LifecycleLeaves(RunStopped, content, risk);
    LifecycleLeaves(RunResumed, content, risk);
    EndLeaves(risk, Completed(false));
  }

  lemma MissedLeaves(arena: Arena, index: nat, missing: Missing, risk: LiveRiskState, rest: Plan)
    requires Leaves(rest, risk)
    ensures Leaves(MissedPlan(arena, index, missing, risk, rest), risk)
  {
    hide Minds, ScheduledCycleAt;
    EndLeaves(risk, ScheduleInvalid);
    var plan := MissedPlan(arena, index, missing, risk, rest);
    if plan.Then? {
      MindsQuietly(plan.act, rest, risk, Some(risk), [], [], None);
    }
  }

  lemma {:induction false} CatchUpLeaves(arena: Arena, completed: nat, due: nat,
                                         missing: nat -> Missing, risk: LiveRiskState, rest: Plan)
    requires Leaves(rest, risk)
    ensures Leaves(CatchUpPlan(arena, completed, due, missing, risk, rest), risk)
    decreases due - completed
  {
    hide MissedPlan, Leaves;
    if completed < due {
      CatchUpLeaves(arena, completed + 1, due, missing, risk, rest);
      MissedLeaves(arena, completed, missing(completed), risk,
                   CatchUpPlan(arena, completed + 1, due, missing, risk, rest));
    }
  }

  lemma InitializeStoresNothing(arena: Arena, started: bool, contents: StartContents)
    ensures Stores(InitializePlan(arena, started, contents)) == []
  {
    var done := End(Prepared, UNLOADED);
    var paused := Then(Note(None, RunPaused, contents.paused), done);
    NotStoring(paused.act, done);
    NotStoring(FlushFirst, done);
    NotStoring(Note(None, HandoffSnapshot, contents.handoff), paused);
    var plan := InitializePlan(arena, started, contents);
    NotStoring(plan.act, plan.rest);
  }

  // ---------------------------------------------------------------- what a stage leaves stored

  /** The accounts a stage sees, in order; `sent` says whether it sent an order. */
  function SightsOf(arena: Arena, before: Process, op: Op, sent: bool): seq<Sight> {
    if arena.Expected().Err? then []
    else
      match op
      case Recover(_, env, day, _) =>
        if before.phase.ChainReady? then [SightOf(day, env.account)] else []
      case CycleTick(wake, _) =>
        if before.phase.Running? && wake.running && !UsedUp(arena, before.phase.completed, wake.now)
        then Seen(wake.env, sent) else []
      case _ => []
  }

  /** When the venue answered the stage's reconciliation, if it did. */
  function Reconciles(arena: Arena, before: Process, op: Op): Option<u64> {
    var leverage := arena.live.isolatedLeverage;
    match op
    case Recover(_, env, _, _) =>
      if before.phase.ChainReady? then AnsweredAt(env, leverage) else None
    case CycleTick(wake, _) =>
      if before.phase.Running? && wake.running then CycleAnswered(arena.live, wake.env) else None
    case _ => None
  }

  /** What is stored after a stage, for a stored state or a first one `risk`: it remembers the accounts
      kept, under the time it held or that of the stage's answered reconciliation. */
  ghost predicate LeftBy(risk: LiveRiskState, kept: seq<Sight>, at: Option<u64>,
                         stored: Option<LiveRiskState>)
  {
    && stored.Some? && Remembers(risk, kept, stored.value)
    && (stored.value.lastReconciliationMs == risk.lastReconciliationMs
        || at == Some(stored.value.lastReconciliationMs))
  }

  lemma CarryMinds(origin: Origin, world: World, plan: Plan, cut: Option<nat>, risk: LiveRiskState,
                   some: seq<Sight>, all: seq<Sight>, at: Option<u64>)
    returns (kept: seq<Sight>)
    requires Minds(plan, risk, world.risk, some, all, at) && some <= all
    requires world.risk.Some? ==> world.risk == Some(risk)
    ensures var (after, finish) := Carry(origin, world, plan, cut);
            && kept <= all
            && (after.risk.None? ==> world.risk.None? && kept == [])
            && (after.risk.Some? ==> LeftBy(risk, kept, at, after.risk))
            && (Survived(finish) ==> kept == some && after.risk == Some(finish.risk))
  {
    hide Carry, Remembers, Stores, StoredBy, RiskOf, EndingOf;
    CarryStores(origin, world, plan, cut);
    var (after, finish) := Carry(origin, world, plan, cut);
    CarryTimes(origin, world, plan, cut, risk, some, all, at);
    if Survived(finish) {
      kept := some;
    } else if after.risk == world.risk {
      RemembersItself(risk);
      kept := [];
    } else {
      assert RemembersPart(risk, all, after.risk.value);
      var n :| 0 <= n <= |all| && Remembers(risk, all[..n], after.risk.value);
      kept := all[..n];
    }
  }

  lemma CarryTimes(origin: Origin, world: World, plan: Plan, cut: Option<nat>, risk: LiveRiskState,
                   some: seq<Sight>, all: seq<Sight>, at: Option<u64>)
    requires Minds(plan, risk, world.risk, some, all, at)
    requires world.risk.Some? ==> world.risk == Some(risk)
    ensures var after := Carry(origin, world, plan, cut).0;
            after.risk.Some? ==>
              || after.risk.value.lastReconciliationMs == risk.lastReconciliationMs
              || at == Some(after.risk.value.lastReconciliationMs)
  {
    hide Carry, Remembers, RemembersPart, Stores, StoredBy, RiskOf, EndingOf;
    CarryStores(origin, world, plan, cut);
  }

  /** What a live session holds in memory is what is stored. */
  predicate InMemory(process: Process) {
    Memory(process.phase).Some? ==> process.world.risk == Memory(process.phase)
  }

  /** The accounts a stage keeps are the first ones it sees, and all of them if the session lives on. */
  predicate KeepsSights(arena: Arena, before: Process, op: Op, after: Process, kept: seq<Sight>) {
    && kept <= SightsOf(arena, before, op, true)
    && (Memory(after.phase).Some? ==>
          kept == SightsOf(arena, before, op,
                           |before.world.submissions| < |after.world.submissions|))
  }

  /** What a stage makes of the stored state, or of the first one. */
  ghost predicate MakesOf(arena: Arena, before: Process, op: Op, after: Process,
                          first: Option<LiveRiskState>, kept: seq<Sight>)
  {
    match before.world.risk
    case Some(risk) =>
      first.None? && LeftBy(risk, kept, Reconciles(arena, before, op), after.world.risk)
    case None =>
      match first
      case None => after.world.risk.None? && kept == []
      case Some(risk) =>
        && op.Recover? && StartsWith(arena, op.first, risk)
        && LeftBy(risk, kept, Reconciles(arena, before, op), after.world.risk)
  }

  ghost predicate StageMinds(arena: Arena, before: Process, op: Op, after: Process,
                             first: Option<LiveRiskState>, kept: seq<Sight>)
  {
    && InMemory(after) && KeepsSights(arena, before, op, after, kept)
    && MakesOf(arena, before, op, after, first, kept)
  }

  lemma QuietStage(origin: Origin, world: World, plan: Plan, cut: Option<nat>, risk: LiveRiskState,
                   at: Option<u64>)
    requires Leaves(plan, risk) && world.risk == Some(risk)
    ensures var (after, finish) := Carry(origin, world, plan, cut);
            && LeftBy(risk, [], at, after.risk)
            && (Survived(finish) ==> after.risk == Some(finish.risk))
  {
    hide Carry, Minds, Remembers;
    var kept := CarryMinds(origin, world, plan, cut, risk, [], [], None);
    assert kept == [];
    var after := Carry(origin, world, plan, cut).0;
    assert after.risk.Some?;
    assert Remembers(risk, [], after.risk.value);
    assert after.risk.value.lastReconciliationMs == risk.lastReconciliationMs;
  }

  /** A stage that changes nothing stored. */
  lemma StillMinds(arena: Arena, before: Process, op: Op, after: Process)
    requires after.world.risk == before.world.risk && InMemory(after)
    requires Memory(after.phase).Some? ==>
               forall sent :: SightsOf(arena, before, op, sent) == []
    ensures StageMinds(arena, before, op, after, None, [])
  {
    hide Remembers;
    if before.world.risk.Some? {
      RemembersItself(before.world.risk.value);
    }
  }

  lemma InitializeStage(arena: Arena, origin: Origin, process: Process, op: Op)
    requires op.Initialize? && arena.Expected().Ok? && process.phase.Down?
    ensures StageMinds(arena, process, op, Step(arena, origin, process, op), None, [])
  {
    hide Carry, InitializePlan, ExpectedCycleCount, Own, Cycles, StageMinds;
    var started := Own(origin, process.world) != [];
    InitializeStoresNothing(arena, started, op.contents);
    hide Stores;
    CarryStores(origin, process.world, InitializePlan(arena, started, op.contents), op.cut);
    StillMinds(arena, process, op, Step(arena, origin, process, op));
  }

  lemma RecoverStage(arena: Arena, origin: Origin, process: Process, op: Op)
    returns (first: Option<LiveRiskState>, kept: seq<Sight>)
    requires op.Recover? && arena.Expected().Ok? && process.phase.ChainReady?
    ensures StageMinds(arena, process, op, Step(arena, origin, process, op), first, kept)
  {
    hide Carry, RecoverPlan, ExpectedCycleCount, Minds, Remembers, StartsWith, AnsweredAt;
    var Recover(start, env, day, cut) := op;
    var world, sights := process.world, [SightOf(day, env.account)];
    var plan, at := RecoverPlan(arena, world.risk, start, env, day), Reconciles(arena, process, op);
    first, kept := None, [];
    if world.risk.Some? {
      RecoverMinds(arena, world.risk.value, start, env, day);
      kept := CarryMinds(origin, world, plan, cut, world.risk.value, sights, sights, at);
    } else {
      first := FirstMinds(arena, start, env, day);
      if first.Some? {
        kept := CarryMinds(origin, world, plan, cut, first.value, sights, sights, at);
        if Carry(origin, world, plan, cut).0.risk.None? {
          first := None;
        }
      } else {
        hide Stores, EndingOf;
        CarryStores(origin, world, plan, cut);
      }
    }
  }

  lemma CatchUpStage(arena: Arena, origin: Origin, process: Process, op: Op)
    requires op.CatchUp? && arena.Expected().Ok? && process.phase.StateReady? && InMemory(process)
    ensures StageMinds(arena, process, op, Step(arena, origin, process, op), None, [])
  {
    hide Carry, CatchUpPlan, ResumePlan, DueCycleCount, ExpectedCycleCount, Leaves, Remembers, Reconciles;
    var due, risk := DueCycleCount(arena.span, arena.cooldown, op.now), process.phase.risk;
    RemembersItself(risk);
    if due.Ok? {
      var completed := process.phase.completed;
      var finished := Max(completed, due.value) >= arena.Expected().value;
      var tail := ResumePlan(finished, op.resume, op.content, risk);
      ResumeLeaves(finished, op.resume, op.content, risk);
      CatchUpLeaves(arena, completed, due.value, op.missing, risk, tail);
      QuietStage(origin, process.world,
                 CatchUpPlan(arena, completed, due.value, op.missing, risk, tail), op.cut, risk,
                 Reconciles(arena, process, op));
    }
  }

  /** A plan that ends has sent all its orders. */
  lemma CarrySendsAll(origin: Origin, world: World, plan: Plan, cut: Option<nat>)
    ensures var (after, finish) := Carry(origin, world, plan, cut);
            finish.Ended? ==>
              (Sendings(plan) != [] <==> |world.submissions| < |after.submissions|)
  {
    hide Perform, PerformFirst, Sendings;
    if cut.None? {
      PerformSends(origin, world, plan);
    }
  }

  lemma SeenFirst(env: CycleEnv, sent: bool)
    ensures Seen(env, sent) <= Seen(env, true)
  {
  }

  lemma TickStage(arena: Arena, origin: Origin, process: Process, op: Op) returns (kept: seq<Sight>)
    requires op.CycleTick? && arena.Expected().Ok? && process.phase.Running? && InMemory(process)
    ensures StageMinds(arena, process, op, Step(arena, origin, process, op), None, kept)
  {
    hide Carry, CyclePlan, LifecyclePlan, MissedPlan, ExpectedCycleCount, Leaves, Minds, Remembers,
         Sendings, AnsweredAt, SeenNext;
    var completed, risk, wake := process.phase.completed, process.phase.risk, op.wake;
    var plan, at := TickPlan(arena, completed, wake, risk), Reconciles(arena, process, op);
    if !Closing(arena, completed, wake.now) && wake.running {
      CycleMinds(arena.live, wake.env, risk, process.world.risk);
      SeenFirst(wake.env, Sendings(plan) != []);
      kept := CarryMinds(origin, process.world, plan, op.cut, risk,
                         Seen(wake.env, Sendings(plan) != []), Seen(wake.env, true), at);
      CarrySendsAll(origin, process.world, plan, op.cut);
    } else {
      kept := [];
      LifecycleLeaves(RunStopped, wake.content, risk);
      EndLeaves(risk, Completed(false));
      MissedLeaves(arena, completed, wake.missing, risk, End(Completed(false), risk));
      QuietStage(origin, process.world, plan, op.cut, risk, at);
    }
  }

  lemma LifecycleStage(arena: Arena, origin: Origin, process: Process, op: Op)
    requires op.Lifecycle? && arena.Expected().Ok? && process.phase.Running? && InMemory(process)
    ensures StageMinds(arena, process, op, Step(arena, origin, process, op), None, [])
  {
    hide Carry, LifecyclePlan, ExpectedCycleCount, Leaves, Remembers;
    var kind, risk := ControlKind(op.control), process.phase.risk;
    LifecycleLeaves(kind, op.content, risk);
    QuietStage(origin, process.world, LifecyclePlan(kind, op.content, risk), op.cut, risk, None);
  }

  /** What one stage keeps of what it sees, wherever it is cut. */
  lemma StepMinds(arena: Arena, origin: Origin, process: Process, op: Op)
    returns (first: Option<LiveRiskState>, kept: seq<Sight>)
    requires InMemory(process)
    ensures StageMinds(arena, process, op, Step(arena, origin, process, op), first, kept)
  {
    hide InitializeStep, RecoverStep, CatchUpStep, TickStep, LifecycleStep, ExpectedCycleCount, StageMinds;
    first, kept := None, [];
    var phase := process.phase;
    if arena.Expected().Ok? && op.Initialize? && phase.Down? {
      InitializeStage(arena, origin, process, op);
    } else if arena.Expected().Ok? && op.Recover? && phase.ChainReady? {
      first, kept := RecoverStage(arena, origin, process, op);
    } else if arena.Expected().Ok? && op.CatchUp? && phase.StateReady? {
      CatchUpStage(arena, origin, process, op);
    } else if arena.Expected().Ok? && op.CycleTick? && phase.Running? {
      kept := TickStage(arena, origin, process, op);
    } else if arena.Expected().Ok? && op.Lifecycle? && phase.Running? {
      LifecycleStage(arena, origin, process, op);
    } else {
      StillMinds(arena, process, op, Step(arena, origin, process, op));
    }
  }

  // ---------------------------------------------------------------- every run remembers

  /** All accounts kept, in order. */
  function Flat(kept: seq<seq<Sight>>): seq<Sight> {
    if kept == [] then [] else Flat(kept[..|kept| - 1]) + kept[|kept| - 1]
  }

  /** Each stage of the run kept the first accounts it saw, and all of them if the session lived on. */
  predicate KeptBy(arena: Arena, origin: Origin, world: World, ops: seq<Op>, kept: seq<seq<Sight>>) {
    && |kept| == |ops|
    && forall j :: 0 <= j < |ops| ==> KeptAt(arena, origin, world, ops, kept[j], j)
  }

  predicate KeptAt(arena: Arena, origin: Origin, world: World, ops: seq<Op>, sights: seq<Sight>, j: nat)
    requires j < |ops|
  {
    var start := Process(world, Down);
    KeepsSights(arena, AfterOps(arena, origin, start, ops[..j]), ops[j],
                AfterOps(arena, origin, start, ops[..j + 1]), sights)
  }

  /** The first state of the run, as one of its recoveries stored it. */
  predicate FirstOf(arena: Arena, ops: seq<Op>, risk: LiveRiskState) {
    exists j :: 0 <= j < |ops| && ops[j].Recover? && StartsWith(arena, ops[j].first, risk)
  }

  /** What is stored at the end of a run remembers its first state and everything its stages kept. */
  ghost predicate RunRemembers(arena: Arena, origin: Origin, world: World, ops: seq<Op>,
                               first: LiveRiskState, kept: seq<seq<Sight>>)
  {
    var after := AfterOps(arena, origin, Process(world, Down), ops);
    && KeptBy(arena, origin, world, ops, kept) && InMemory(after)
    && match after.world.risk
       case None => Flat(kept) == []
       case Some(risk) => FirstOf(arena, ops, first) && Remembers(first, Flat(kept), risk)
  }

  /** Over any run and any crashes, the stored peak is the highest equity of the run's first state and of
      every account its stages kept; the day's starting equity is the first one kept on the trading day;
      and a live session holds exactly what is stored. A stage that lives on keeps every account it sees,
      and one that dies the first ones. */
  lemma {:induction false} EveryRunRemembers(arena: Arena, origin: Origin, world: World, ops: seq<Op>)
    returns (first: LiveRiskState, kept: seq<seq<Sight>>)
    requires world.risk.None?
    ensures RunRemembers(arena, origin, world, ops, first, kept)
  {
    hide Step, Remembers, StartsWith, StageMinds;
    if ops == [] {
      first, kept := UNLOADED, [];
    } else {
      var n := |ops| - 1;
      first, kept := EveryRunRemembers(arena, origin, world, ops[..n]);
      var before := AfterOps(arena, origin, Process(world, Down), ops[..n]);
      var state, sights := StepMinds(arena, origin, before, ops[n]);
      RunGoesOn(arena, origin, world, ops, first, kept, state, sights);
      if state.Some? {
        first := state.value;
      }
      kept := kept + [sights];
    }
  }

  lemma RunGoesOn(arena: Arena, origin: Origin, world: World, ops: seq<Op>, first: LiveRiskState,
                  kept: seq<seq<Sight>>, state: Option<LiveRiskState>, sights: seq<Sight>)
    requires ops != [] && RunRemembers(arena, origin, world, ops[..|ops| - 1], first, kept)
    requires var before := AfterOps(arena, origin, Process(world, Down), ops[..|ops| - 1]);
             StageMinds(arena, before, ops[|ops| - 1], AfterOps(arena, origin, Process(world, Down), ops),
                        state, sights)
    ensures RunRemembers(arena, origin, world, ops, if state.Some? then state.value else first,
                         kept + [sights])
  {
    hide Step, Remembers, StartsWith, KeptBy, SightsOf, Reconciles;
    var n, start := |ops| - 1, Process(world, Down);
    var before, after := AfterOps(arena, origin, start, ops[..n]), AfterOps(arena, origin, start, ops);
    var longer := kept + [sights];
    assert longer[..|longer| - 1] == kept;
    KeptGoesOn(arena, origin, world, ops, kept, sights);
    if before.world.risk.Some? {
      assert state.None?;
      var j :| 0 <= j < n && ops[..n][j].Recover? && StartsWith(arena, ops[..n][j].first, first);
      assert ops[j].Recover? && StartsWith(arena, ops[j].first, first);
      RemembersOnward(first, Flat(kept), before.world.risk.value, sights, after.world.risk.value);
    } else if state.Some? {
      assert ops[n].Recover? && StartsWith(arena, ops[n].first, state.value);
      assert Flat(longer) == sights;
    }
  }

  lemma KeptGoesOn(arena: Arena, origin: Origin, world: World, ops: seq<Op>, kept: seq<seq<Sight>>,
                   sights: seq<Sight>)
    requires ops != [] && KeptBy(arena, origin, world, ops[..|ops| - 1], kept)
    requires var start := Process(world, Down);
             KeepsSights(arena, AfterOps(arena, origin, start, ops[..|ops| - 1]), ops[|ops| - 1],
                         AfterOps(arena, origin, start, ops), sights)
    ensures KeptBy(arena, origin, world, ops, kept + [sights])
  {
    hide Step, KeepsSights, AfterOps;
    var n, longer := |ops| - 1, kept + [sights];
    forall j | 0 <= j < |ops| ensures KeptAt(arena, origin, world, ops, longer[j], j) {
      if j < n {
        assert KeptAt(arena, origin, world, ops[..n], kept[j], j);
        assert ops[..n][..j] == ops[..j] && ops[..n][..j + 1] == ops[..j + 1];
      } else {
        assert ops[..n + 1] == ops;
      }
    }
  }

  /** Every order was judged on the run's memory: its risk state remembers the first state, every account
      kept before the wake-up that sent it, the account that wake-up began with, and the account it was
      judged on. */
  lemma OrdersRemember(arena: Arena, origin: Origin, world: World, ops: seq<Op>, i: nat)
    returns (j: nat, first: LiveRiskState, kept: seq<seq<Sight>>)
    requires Fresh(origin, world)
    requires i < |AfterOps(arena, origin, Process(world, Down), ops).world.submissions|
    ensures j < |ops| && SentAt(arena, origin, world, ops, i, j)
    ensures KeptBy(arena, origin, world, ops[..j], kept) && FirstOf(arena, ops[..j], first)
    ensures var order := AfterOps(arena, origin, Process(world, Down), ops).world.submissions[i];
            Remembers(first, Flat(kept) + [SightOf(order.day, ops[j].wake.env.account),
                                           Sight(order.day, order.basis.account.equity)],
                      order.basis.risk)
  {
    hide AfterOps, Remembers, FirstOf, KeptBy, SentBy;
    var start := Process(world, Down);
    var order := AfterOps(arena, origin, start, ops).world.submissions[i];
    OrdersAnswerWakeUps(arena, origin, world, ops, i);
    j :| 0 <= j < |ops| && SentAt(arena, origin, world, ops, i, j);
    first, kept := EveryRunRemembers(arena, origin, world, ops[..j]);
    SentRemembers(arena, AfterOps(arena, origin, start, ops[..j]), ops[j], order, first, Flat(kept));
  }

  lemma SentRemembers(arena: Arena, before: Process, op: Op, order: Submission, first: LiveRiskState,
                      sights: seq<Sight>)
    requires SentBy(arena.live, before, op, order) && InMemory(before)
    requires before.world.risk.Some? ==> Remembers(first, sights, before.world.risk.value)
    ensures before.world.risk.Some?
    ensures Remembers(first, sights + [SightOf(order.day, op.wake.env.account),
                                       Sight(order.day, order.basis.account.equity)],
                      order.basis.risk)
  {
    hide Remembers, UpdateRiskState, Justified, Observes;
    var held, env := before.phase.risk, op.wake.env;
    var dated := UpdateRiskState(held, env.account.value, env.day);
    var seen := sights + [Sight(env.day, env.account.value.equity)];
    UpdateRemembers(first, sights, held, env.account.value, env.day);
    UpdateRemembers(first, seen, dated, order.basis.account, env.day);
    assert seen + [Sight(env.day, order.basis.account.equity)]
           == sights + [SightOf(order.day, env.account), Sight(order.day, order.basis.account.equity)];
  }
}
