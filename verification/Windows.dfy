/** What the venue was asked and answered: the stored reconciliation time moves only with an answered
    reconciliation, and every moment is covered by answered windows. */
module Windows {
  import opened Arithmetic
  import opened Events
  import opened Journal
  import opened Writer
  import opened WriterTheorems
  import opened Schedule
  import opened Live
  import opened LiveTheorems
  import opened Session
  import opened SessionTheorems
  import opened Trace
  import opened RiskMemory

  // ---------------------------------------------------------------- when the venue answered

  /** Over a run the stored reconciliation time is the first state's, or changes only in a stage whose
      reconciliation was answered in full, to the time it was answered for. */
  lemma TimeMovesWhenAnswered(arena: Arena, origin: Origin, world: World, ops: seq<Op>, n: nat)
    requires world.risk.None? && n < |ops|
    ensures var start := Process(world, Down);
            var before := AfterOps(arena, origin, start, ops[..n]);
            var after := AfterOps(arena, origin, start, ops[..n + 1]);
            && (before.world.risk.Some? ==> after.world.risk.Some?)
            && (after.world.risk.Some? ==>
                  var last := after.world.risk.value.lastReconciliationMs;
                  || (before.world.risk.Some? && before.world.risk.value.lastReconciliationMs == last)
                  || (before.world.risk.None? && ops[n].Recover? && ops[n].first.at == Some(last))
                  || Reconciles(arena, before, ops[n]) == Some(last))
  {
    hide Step, Remembers, KeptBy, FirstOf, KeepsSights, Reconciles;
    var start := Process(world, Down);
    var first, kept := EveryRunRemembers(arena, origin, world, ops[..n]);
    assert ops[..n + 1][..n] == ops[..n];
    var before := AfterOps(arena, origin, start, ops[..n]);
    var state, sights := StepMinds(arena, origin, before, ops[n]);
  }

  /** The stage asked for fills and funding between the two times, and the venue answered both, and
      gave a healthy account. */
  predicate AnsweredWindow(arena: Arena, before: Process, op: Op, start: int, end: int) {
    var leverage := arena.live.isolatedLeverage;
    match op
    case Recover(first, env, _, _) =>
      && before.phase.ChainReady? && start == Since(before.world.risk, first)
      && Answered(env, leverage) && env.at == Some(end)
    case CycleTick(wake, _) =>
      && before.phase.Running? && start == before.phase.risk.lastReconciliationMs
      && wake.running && wake.env.dispatch.accepted
      && Answered(wake.env.reconcile, leverage) && wake.env.reconcile.at == Some(end)
    case _ => false
  }

  /** A stored window of a run was recorded by a stage for which the venue had answered it. */
  ghost predicate AnsweredAndRecorded(arena: Arena, origin: Origin, world: World, ops: seq<Op>, i: nat,
                                      j: nat)
    requires j < |ops|
  {
    var start := Process(world, Down);
    var own := Own(origin, AfterOps(arena, origin, start, ops).world);
    && i < |own| && own[i].envelope.fields.payload.Window?
    && RecordedBy(arena, origin, world, ops, i, j)
    && var payload := own[i].envelope.fields.payload;
       AnsweredWindow(arena, AfterOps(arena, origin, start, ops[..j]), ops[j], payload.start, payload.end)
  }

  predicate IsReport(kind: Kind) {
    kind == FillsReported || kind == FundingReported
  }

  lemma RecordedWindowIsAnswered(arena: Arena, before: Process, op: Op, draft: Draft)
    requires MayRecord(arena, before, op, draft) && IsReport(draft.kind)
    ensures draft.payload.Window?
    ensures AnsweredWindow(arena, before, op, draft.payload.start, draft.payload.end)
  {
    hide Answered, ExpectedCycleCount, ScheduledCycleAt, Supplied, Since;
  }

  lemma EveryWindowIsAnswered(arena: Arena, origin: Origin, world: World, ops: seq<Op>, i: nat)
    requires Fresh(origin, world)
    requires var own := Own(origin, AfterOps(arena, origin, Process(world, Down), ops).world);
             i < |own| && IsReport(own[i].envelope.fields.kind)
    ensures exists j :: 0 <= j < |ops| && AnsweredAndRecorded(arena, origin, world, ops, i, j)
  {
    hide AfterOps, Settled, MayRecord, AnsweredWindow, RunRows;
    EveryEventHasItsStage(arena, origin, world, ops, i);
    var j :| 0 <= j < |ops| && RecordedBy(arena, origin, world, ops, i, j);
    var start := Process(world, Down);
    var before := AfterOps(arena, origin, start, ops[..j]);
    var own := Own(origin, AfterOps(arena, origin, start, ops).world);
    var draft :| Carries(origin, own[i].envelope, draft) && MayRecord(arena, before, ops[j], draft);
    RecordedWindowIsAnswered(arena, before, ops[j], draft);
    assert AnsweredAndRecorded(arena, origin, world, ops, i, j);
  }

  /** Some stage had the venue's answer for a window of the kind that contains the instant. */
  ghost predicate AnsweredFor(arena: Arena, origin: Origin, world: World, ops: seq<Op>, kind: Kind,
                              instant: int)
  {
    var own := Own(origin, AfterOps(arena, origin, Process(world, Down), ops).world);
    exists i, j :: && 0 <= i < |own| && Spans(own[i], kind, instant)
                   && 0 <= j < |ops| && AnsweredAndRecorded(arena, origin, world, ops, i, j)
  }

  lemma ReportedIsAnswered(arena: Arena, origin: Origin, world: World, ops: seq<Op>, kind: Kind,
                           instant: int)
    requires Fresh(origin, world) && IsReport(kind)
    requires Reported(Own(origin, AfterOps(arena, origin, Process(world, Down), ops).world), kind, instant)
    ensures AnsweredFor(arena, origin, world, ops, kind, instant)
  {
    hide AfterOps, Settled, AnsweredAndRecorded, RunRows, Fresh;
    var own := Own(origin, AfterOps(arena, origin, Process(world, Down), ops).world);
    var i :| 0 <= i < |own| && Spans(own[i], kind, instant);
    EveryWindowIsAnswered(arena, origin, world, ops, i);
  }

  /** No reconciliation gap, whatever the clock and the crashes: every instant from the first stored
      reconciliation time to the current one is in a window for which the venue answered a stage's
      question about fills, and in one for which it answered the question about funding. */
  lemma NoReconciliationGap(arena: Arena, origin: Origin, world: World, ops: seq<Op>, instant: int)
    requires Fresh(origin, world)
    ensures var after := AfterOps(arena, origin, Process(world, Down), ops).world;
            && (after.risk.Some? <==> after.mark.Some?)
            && (after.risk.Some? && after.mark.value < after.risk.value.lastReconciliationMs
                && after.mark.value <= instant <= after.risk.value.lastReconciliationMs ==>
                  && AnsweredFor(arena, origin, world, ops, FillsReported, instant)
                  && AnsweredFor(arena, origin, world, ops, FundingReported, instant))
  {
    hide AfterOps, Fresh, Own, Reported, AnsweredFor;
    WindowsLeaveNoGap(arena, origin, world, ops, instant);
    var after := AfterOps(arena, origin, Process(world, Down), ops).world;
    if Reported(Own(origin, after), FillsReported, instant) {
      ReportedIsAnswered(arena, origin, world, ops, FillsReported, instant);
    }
    if Reported(Own(origin, after), FundingReported, instant) {
      ReportedIsAnswered(arena, origin, world, ops, FundingReported, instant);
    }
  }
}
