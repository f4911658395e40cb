/** What the acts of a live cycle keep, wherever they are cut short: the daily order cap, the order
    event before every submission, and reconciliation windows without a gap. */
module LiveTheorems {
  import opened Arithmetic
  import opened Policy
  import opened Book
  import opened Market
  import opened Events
  import opened Journal
  import opened Writer
  import opened WriterTheorems
  import opened Live
  import PolicyTheorems

  // ---------------------------------------------------------------- what is durable

  /** Orders sent to the venue by cycles dated to the day. */
  function Sends(submissions: seq<Submission>, day: int): nat {
    if submissions == [] then 0
    else
      Sends(submissions[..|submissions| - 1], day)
      + (if submissions[|submissions| - 1].day == day then 1 else 0)
  }

  /** An acknowledged order event carries the announcement. */
  predicate Announced(own: seq<Row>, announcement: Payload) {
    exists i :: 0 <= i < |own| && Announces(own[i], announcement)
  }

  predicate Announces(row: Row, announcement: Payload) {
    && row.envelope.fields.kind == OrderSubmitted
    && row.envelope.fields.payload == announcement
    && row.receipt.Some?
  }

  predicate Windowed(own: seq<Row>, kind: Kind, start: int, end: int) {
    exists i :: 0 <= i < |own| && IsWindow(own[i], kind, start, end)
  }

  predicate IsWindow(row: Row, kind: Kind, start: int, end: int) {
    row.envelope.fields.kind == kind && row.envelope.fields.payload == Window(start, end)
  }

  /** Some stored window of the kind contains the instant. */
  predicate Reported(own: seq<Row>, kind: Kind, instant: int) {
    exists i :: 0 <= i < |own| && Spans(own[i], kind, instant)
  }

  predicate Spans(row: Row, kind: Kind, instant: int) {
    && row.envelope.fields.kind == kind
    && row.envelope.fields.payload.Window?
    && row.envelope.fields.payload.start <= instant <= row.envelope.fields.payload.end
  }

  /** Every instant from `start` to `end` is in some window. */
  ghost predicate Covered(own: seq<Row>, kind: Kind, start: int, end: int) {
    start < end ==> forall instant :: start <= instant <= end ==> Reported(own, kind, instant)
  }

  lemma KeptAnnouncement(before: seq<Row>, after: seq<Row>, announcement: Payload)
    requires Continues(before, after) && Announced(before, announcement)
    ensures Announced(after, announcement)
  {
    var i :| 0 <= i < |before| && Announces(before[i], announcement);
    assert Announces(after[i], announcement);
  }

  lemma KeptWindow(before: seq<Row>, after: seq<Row>, kind: Kind, start: int, end: int)
    requires Continues(before, after) && Windowed(before, kind, start, end)
    ensures Windowed(after, kind, start, end)
  {
    var i :| 0 <= i < |before| && IsWindow(before[i], kind, start, end);
    assert IsWindow(after[i], kind, start, end);
  }

  lemma KeptCover(before: seq<Row>, after: seq<Row>, kind: Kind, start: int, end: int)
    requires Continues(before, after) && Covered(before, kind, start, end)
    ensures Covered(after, kind, start, end)
  {
    if start < end {
      forall instant | start <= instant <= end ensures Reported(after, kind, instant) {
        assert Reported(before, kind, instant);
        var i :| 0 <= i < |before| && Spans(before[i], kind, instant);
        assert Spans(after[i], kind, instant);
      }
    }
  }

  /** A window that starts where coverage ends extends it, also when the clock ran backwards. */
  lemma CoverExtends(own: seq<Row>, kind: Kind, mark: int, last: int, end: int)
    requires Covered(own, kind, mark, last) && Windowed(own, kind, last, end)
    ensures Covered(own, kind, mark, end)
  {
    var i :| 0 <= i < |own| && IsWindow(own[i], kind, last, end);
    if mark < end {
      forall instant | mark <= instant <= end ensures Reported(own, kind, instant) {
        if last <= instant {
          assert Spans(own[i], kind, instant);
        } else {
          assert mark < last;
        }
      }
    }
  }

  // ---------------------------------------------------------------- the discipline of a plan

  /** A trading day being watched: the day the clock shows, how many orders the visits to the watched
      day that are over can account for, and the cycles woken in the visit that is not. */
  datatype Watch = Watch(day: int, now: Option<int>, base: nat, ticks: nat)
  {
    predicate Visiting() {
      now == Some(day)
    }
  }

  /** The arena's configuration, the day being watched, and the latest day the clock has shown if it
      never steps back to an earlier one. */
  datatype Terms = Terms(config: LiveConfig, watch: Watch, today: Option<int>)
  {
    function Cap(): u16 {
      config.rules.maxOrdersDay
    }
  }

  /** The account has equity, and every position is isolated at the arena's leverage. */
  predicate Healthy(account: AccountSnapshot, leverage: u8) {
    && account.equity > 0 && leverage > 0
    && forall symbol :: symbol in account.positions ==>
         account.positions[symbol].isolated && account.positions[symbol].leverage == leverage
  }

  /** The order is the policy's verdict on the recorded basis: the account, the market built from the
      book and the risk state of the day, whose peak is no lower than the account's equity. */
  predicate Justified(config: LiveConfig, submission: Submission) {
    var basis := submission.basis;
    && Askable(config, basis)
    && Healthy(basis.account, config.isolatedLeverage)
    && basis.risk.tradingDay == submission.day
    && basis.account.equity <= basis.risk.peakEquity
    && Verdict(config, basis) == Ok(submission.order)
  }

  /** What the acts so far entitle the next one to: the stored risk state, the orders sent on the
      watched day, the ends of windows reported from the stored time, and announced orders. */
  datatype Track = Track(
    held: Option<LiveRiskState>,
    day: int,
    sent: nat,
    fills: Option<int>,
    funding: Option<int>,
    announced: set<Payload>)

  function Resting(world: World, terms: Terms): Track {
    Track(world.risk, terms.watch.day, Sends(world.submissions, terms.watch.day), None, None, {})
  }

  /** The state is for a later day, or for the same day with its starting equity and no fewer
      orders. */
  predicate NotOlder(held: LiveRiskState, state: LiveRiskState) {
    || held.tradingDay < state.tradingDay
    || (&& held.tradingDay == state.tradingDay
        && held.dayStartEquity == state.dayStartEquity
        && held.ordersToday <= state.ordersToday)
  }

  /** Orders sent since were judged on a state that has lost nothing of the state stored before. */
  predicate Judged(before: World, after: World, terms: Terms) {
    && before.submissions <= after.submissions
    && forall i :: |before.submissions| <= i < |after.submissions| ==>
         Retains(before.risk, Some(Counted(after.submissions[i].basis.risk)), terms)
  }

  /** What later states never lose: the peak, and unless the clock may step back, the day. */
  predicate Retains(held: Option<LiveRiskState>, state: Option<LiveRiskState>, terms: Terms) {
    held.Some? ==>
      && state.Some?
      && held.value.peakEquity <= state.value.peakEquity
      && (terms.today.Some? ==> NotOlder(held.value, state.value))
  }

  predicate TimeReported(track: Track, last: int) {
    track.held.Some? ==>
      || last == track.held.value.lastReconciliationMs
      || (track.fills == Some(last) && track.funding == Some(last))
  }

  /** The state accounts for the orders sent on the watched day: those beyond what visits that are
      over account for are in its count, which the daily maximum bounds. */
  predicate Fits(state: LiveRiskState, sent: nat, terms: Terms) {
    && state.ordersToday <= terms.Cap()
    && sent <= terms.watch.base
               + (if terms.watch.Visiting() && state.tradingDay == terms.watch.day then
                    state.ordersToday
                  else 0)
    && (terms.today.Some? ==> state.tradingDay <= terms.today.value)
  }

  predicate Licensed(track: Track, act: Act, terms: Terms) {
    match act
    case EmitEvent(_) => true
    case FlushFirst => true
    case StoreRisk(state) =>
      && Retains(track.held, Some(state), terms)
      && Fits(state, track.sent, terms)
      && TimeReported(track, state.lastReconciliationMs)
    case SubmitIoc(submission) =>
      && AnnouncementOf(submission) in track.announced
      && Justified(terms.config, submission)
      && track.held == Some(Counted(submission.basis.risk))
      && Fits(track.held.value, Advance(track, act).sent, terms)
  }

  /** The end of a window of the kind that starts at the stored reconciliation time. */
  function WindowEnd(track: Track, draft: Draft, kind: Kind, known: Option<int>): Option<int> {
    if draft.kind == kind && draft.payload.Window? && track.held.Some?
       && draft.payload.start == track.held.value.lastReconciliationMs
    then Some(draft.payload.end)
    else known
  }

  function Advance(track: Track, act: Act): Track {
    match act
    case EmitEvent(draft) =>
      track.(fills := WindowEnd(track, draft, FillsReported, track.fills),
             funding := WindowEnd(track, draft, FundingReported, track.funding),
             announced := track.announced
                          + (if draft.kind == OrderSubmitted then {draft.payload} else {}))
    case FlushFirst => track
    case StoreRisk(state) => track.(held := Some(state), fills := None, funding := None)
    case SubmitIoc(submission) =>
      track.(sent := track.sent + (if submission.day == track.day then 1 else 0))
  }

  /** Memory agrees with the stored state closely enough to go on from it. */
  predicate InStep(track: Track, risk: LiveRiskState, terms: Terms) {
    && track.held.Some?
    && Retains(track.held, Some(risk), terms)
    && Fits(risk, track.sent, terms)
    && risk.lastReconciliationMs == track.held.value.lastReconciliationMs
  }

  predicate Survives(ending: Ending) {
    ending.Completed? || ending.ModelFailed?
  }

  /** Every act is licensed by those before it, and a surviving ending leaves memory consistent. */
  predicate Sanctioned(plan: Plan, track: Track, terms: Terms)
    decreases plan
  {
    match plan
    case End(ending, risk) => Survives(ending) ==> InStep(track, risk, terms)
    case Then(act, rest) => Licensed(track, act, terms) && Sanctioned(rest, Advance(track, act), terms)
  }

  // ---------------------------------------------------------------- the invariant

  /** The stored state accounts for the orders sent on the watched day. */
  predicate Budgeted(world: World, sent: nat, terms: Terms) {
    && sent == Sends(world.submissions, terms.watch.day)
    && (match world.risk
        case None => world.submissions == []
        case Some(risk) => Fits(risk, sent, terms))
  }

  function AnnouncementOf(submission: Submission): Payload {
    ClientOrder(submission.clientOrderId, submission.order)
  }

  predicate AllJustified(config: LiveConfig, submissions: seq<Submission>) {
    forall i :: 0 <= i < |submissions| ==> Justified(config, submissions[i])
  }

  predicate AllAnnounced(own: seq<Row>, submissions: seq<Submission>) {
    forall i :: 0 <= i < |submissions| ==> Announced(own, AnnouncementOf(submissions[i]))
  }

  ghost predicate Gapless(own: seq<Row>, world: World) {
    && (world.risk.Some? <==> world.mark.Some?)
    && (world.risk.Some? ==>
          var last := world.risk.value.lastReconciliationMs;
          && Covered(own, FillsReported, world.mark.value, last)
          && Covered(own, FundingReported, world.mark.value, last))
  }

  /** The track's promises hold of the stored events. */
  ghost predicate Backed(own: seq<Row>, track: Track) {
    && (forall payload :: payload in track.announced ==> Announced(own, payload))
    && (track.fills.Some? ==>
          track.held.Some?
          && Windowed(own, FillsReported, track.held.value.lastReconciliationMs, track.fills.value))
    && (track.funding.Some? ==>
          track.held.Some?
          && Windowed(own, FundingReported, track.held.value.lastReconciliationMs,
                      track.funding.value))
  }

  ghost predicate Upholds(origin: Origin, world: World, track: Track, terms: Terms) {
    && Settled(origin.crypto, world.wire)
    && world.risk == track.held && track.day == terms.watch.day
    && Budgeted(world, track.sent, terms)
    && AllAnnounced(Own(origin, world), world.submissions)
    && AllJustified(terms.config, world.submissions)
    && Gapless(Own(origin, world), world)
    && Backed(Own(origin, world), track)
  }

  lemma UpholdsResting(origin: Origin, world: World, track: Track, terms: Terms)
    requires Upholds(origin, world, track, terms)
    ensures Upholds(origin, world, Resting(world, terms), terms)
  {
    hide Settled, Own, AllAnnounced, Gapless, Sends;
  }

  // ---------------------------------------------------------------- one act

  /** More events of the run never take anything back. */
  lemma GrowthKeeps(origin: Origin, before: World, wire: Wire, track: Track, terms: Terms)
    requires Upholds(origin, before, track, terms)
    requires Settled(origin.crypto, wire)
    requires Continues(Own(origin, before), RunRows(wire.rows, origin.runId))
    ensures Upholds(origin, before.(wire := wire), track, terms)
  {
    hide Settled, Continues, Announced, Windowed, Covered, RunRows, Sends;
    var after := before.(wire := wire);
    var older, newer := Own(origin, before), Own(origin, after);
    assert Continues(older, newer);
    hide Own;
    assert Budgeted(after, track.sent, terms);
    forall i | 0 <= i < |before.submissions|
      ensures Announced(newer, AnnouncementOf(before.submissions[i]))
    {
      KeptAnnouncement(older, newer, AnnouncementOf(before.submissions[i]));
    }
    forall payload | payload in track.announced ensures Announced(newer, payload) {
      KeptAnnouncement(older, newer, payload);
    }
    if track.fills.Some? {
      KeptWindow(older, newer, FillsReported, track.held.value.lastReconciliationMs, track.fills.value);
    }
    if track.funding.Some? {
      KeptWindow(older, newer, FundingReported, track.held.value.lastReconciliationMs,
                 track.funding.value);
    }
    if before.risk.Some? {
      var mark, last := before.mark.value, before.risk.value.lastReconciliationMs;
      KeptCover(older, newer, FillsReported, mark, last);
      KeptCover(older, newer, FundingReported, mark, last);
    }
  }

  /** An accepted event backs what the track says about it. */
  lemma EmitBacks(origin: Origin, before: Wire, after: Wire, draft: Draft, track: Track)
    requires Appended(origin, before, after, draft, Done)
    requires Backed(RunRows(after.rows, origin.runId), track)
    ensures Backed(RunRows(after.rows, origin.runId), Advance(track, EmitEvent(draft)))
  {
    hide Settled, RunRows;
    var own := RunRows(after.rows, origin.runId);
    var n := |RunRows(before.rows, origin.runId)|;
    assert own[n].envelope.fields.kind == draft.kind && own[n].envelope.fields.payload == draft.payload;
    assert own[n].receipt.Some?;
    hide Appended;
    if draft.kind == OrderSubmitted {
      assert Announces(own[n], draft.payload);
    }
    if draft.payload.Window? {
      assert IsWindow(own[n], draft.kind, draft.payload.start, draft.payload.end);
    }
  }

  lemma EmitKeeps(origin: Origin, world: World, draft: Draft, track: Track, terms: Terms)
    requires Upholds(origin, world, track, terms)
    ensures var (next, outcome) := DoAct(origin, world, EmitEvent(draft));
            && Upholds(origin, next, track, terms)
            && (outcome == Done ==> Upholds(origin, next, Advance(track, EmitEvent(draft)), terms))
  {
    hide Append, Settled, Budgeted, AllAnnounced, Gapless, Backed, RunRows;
    AppendEffect(origin, world.wire, draft);
    var (wire, outcome) := Append(origin, world.wire, draft);
    GrowthKeeps(origin, world, wire, track, terms);
    if outcome == Done {
      EmitBacks(origin, world.wire, wire, draft, track);
    }
  }

  lemma FlushKeeps(origin: Origin, world: World, track: Track, terms: Terms)
    requires Upholds(origin, world, track, terms)
    ensures Upholds(origin, DoAct(origin, world, FlushFirst).0, track, terms)
  {
    hide Flush, Settled, Budgeted, AllAnnounced, Gapless, Backed, RunRows;
    FlushSettles(origin, world.wire);
    var wire := Flush(origin, world.wire).0;
    GrowthKeeps(origin, world, wire, track, terms);
  }

  lemma StoreKeepsGapless(own: seq<Row>, world: World, state: LiveRiskState, track: Track)
    requires world.risk == track.held && Gapless(own, world) && Backed(own, track)
    requires TimeReported(track, state.lastReconciliationMs)
    ensures Gapless(own, world.(risk := Some(state), mark := Marked(world.mark, state)))
  {
    hide Announced, Windowed, Covered;
    if world.risk.Some? {
      var mark, last := world.mark.value, world.risk.value.lastReconciliationMs;
      if state.lastReconciliationMs != last {
        CoverExtends(own, FillsReported, mark, last, state.lastReconciliationMs);
        CoverExtends(own, FundingReported, mark, last, state.lastReconciliationMs);
      }
    } else {
      NothingToCover(own, state.lastReconciliationMs);
    }
  }

  lemma StoreKeeps(origin: Origin, world: World, state: LiveRiskState, track: Track, terms: Terms)
    requires Upholds(origin, world, track, terms) && Licensed(track, StoreRisk(state), terms)
    ensures var next := DoAct(origin, world, StoreRisk(state)).0;
            Upholds(origin, next, Advance(track, StoreRisk(state)), terms)
  {
    StoreKeepsGapless(Own(origin, world), world, state, track);
    hide Settled, RunRows, AllAnnounced, AllJustified, Announced, Gapless, Retains, Fits, Sends;
  }

  lemma NothingToCover(own: seq<Row>, last: int)
    ensures Covered(own, FillsReported, last, last) && Covered(own, FundingReported, last, last)
  {
  }

  lemma SendsOneMore(submissions: seq<Submission>, submission: Submission, day: int)
    ensures Sends(submissions + [submission], day)
            == Sends(submissions, day) + (if submission.day == day then 1 else 0)
  {
    assert (submissions + [submission])[..|submissions|] == submissions;
  }

  lemma SubmitKeeps(origin: Origin, world: World, submission: Submission, track: Track, terms: Terms)
    requires Upholds(origin, world, track, terms) && Licensed(track, SubmitIoc(submission), terms)
    ensures var next := DoAct(origin, world, SubmitIoc(submission)).0;
            Upholds(origin, next, Advance(track, SubmitIoc(submission)), terms)
  {
    hide Settled, RunRows, Announced, Windowed, Covered, Sends, Justified, Fits;
    SendsOneMore(world.submissions, submission, track.day);
  }

  lemma ActJudges(origin: Origin, world: World, act: Act, track: Track, terms: Terms)
    requires world.risk == track.held && Licensed(track, act, terms)
    ensures var next := DoAct(origin, world, act).0;
            Retains(world.risk, next.risk, terms) && Judged(world, next, terms)
  {
    RetainsItself(world.risk, terms);
    hide Append, Flush, Retains, Fits, Justified;
  }

  lemma ActKeeps(origin: Origin, world: World, act: Act, track: Track, terms: Terms)
    requires Upholds(origin, world, track, terms) && Licensed(track, act, terms)
    ensures var (next, outcome) := DoAct(origin, world, act);
            && Upholds(origin, next, Resting(next, terms), terms)
            && (outcome == Done ==> Upholds(origin, next, Advance(track, act), terms))
            && Retains(world.risk, next.risk, terms) && Judged(world, next, terms)
  {
    TrackHolds(origin, world, track, terms);
    ActJudges(origin, world, act, track, terms);
    hide Upholds, Append, Flush, Licensed, Judged, Retains;
    match act {
      case EmitEvent(draft) => EmitKeeps(origin, world, draft, track, terms);
      case FlushFirst => FlushKeeps(origin, world, track, terms);
      case StoreRisk(state) => StoreKeeps(origin, world, state, track, terms);
      case SubmitIoc(submission) => SubmitKeeps(origin, world, submission, track, terms);
    }
    var (next, outcome) := DoAct(origin, world, act);
    if outcome == Done {
      UpholdsResting(origin, next, Advance(track, act), terms);
    } else {
      UpholdsResting(origin, next, track, terms);
    }
  }

  // ---------------------------------------------------------------- whole plans, cut anywhere

  lemma RetainsOnward(a: Option<LiveRiskState>, b: Option<LiveRiskState>, c: Option<LiveRiskState>,
                      terms: Terms)
    requires Retains(a, b, terms) && Retains(b, c, terms)
    ensures Retains(a, c, terms)
  {
  }

  lemma RetainsItself(a: Option<LiveRiskState>, terms: Terms)
    ensures Retains(a, a, terms)
  {
  }

  lemma JudgedOnward(a: World, b: World, c: World, terms: Terms)
    requires Retains(a.risk, b.risk, terms) && Retains(b.risk, c.risk, terms)
    requires Judged(a, b, terms) && Judged(b, c, terms)
    ensures Retains(a.risk, c.risk, terms) && Judged(a, c, terms)
  {
    hide Retains;
    RetainsOnward(a.risk, b.risk, c.risk, terms);
    forall i | |a.submissions| <= i < |c.submissions|
      ensures Retains(a.risk, Some(Counted(c.submissions[i].basis.risk)), terms)
    {
      if i < |b.submissions| {
        assert c.submissions[i] == b.submissions[i];
      } else {
        RetainsOnward(a.risk, b.risk, Some(Counted(c.submissions[i].basis.risk)), terms);
      }
    }
  }

  lemma {:induction false} PlanKeeps(origin: Origin, world: World, plan: Plan, track: Track, terms: Terms)
    requires Upholds(origin, world, track, terms) && Sanctioned(plan, track, terms)
    ensures var (after, finish) := Perform(origin, world, plan);
            && Upholds(origin, after, Resting(after, terms), terms)
            && Retains(world.risk, after.risk, terms) && Judged(world, after, terms)
            && (finish.Ended? && Survives(finish.ending) ==>
                  InStep(Resting(after, terms), finish.risk, terms))
    decreases plan
  {
    hide Upholds, DoAct, Licensed, Advance, Retains;
    match plan {
      case End(ending, risk) =>
        RetainsItself(world.risk, terms);
        UpholdsResting(origin, world, track, terms);
        TrackHolds(origin, world, track, terms);
      case Then(act, rest) =>
        ActKeeps(origin, world, act, track, terms);
        var (next, outcome) := DoAct(origin, world, act);
        if outcome == Done {
          PlanKeeps(origin, next, rest, Advance(track, act), terms);
          JudgedOnward(world, next, Perform(origin, next, rest).0, terms);
        }
    }
  }

  lemma TrackHolds(origin: Origin, world: World, track: Track, terms: Terms)
    requires Upholds(origin, world, track, terms)
    ensures world.risk == track.held && track.day == terms.watch.day
    ensures track.sent == Sends(world.submissions, track.day)
    ensures world.risk.Some? ==> Fits(world.risk.value, track.sent, terms)
    ensures world.risk.None? ==> track.sent == 0
  {
  }

  lemma {:induction false} CutPlanKeeps(origin: Origin, world: World, plan: Plan, count: nat,
                                        track: Track, terms: Terms)
    requires Upholds(origin, world, track, terms) && Sanctioned(plan, track, terms)
    ensures var after := PerformFirst(origin, world, plan, count);
            && Upholds(origin, after, Resting(after, terms), terms)
            && Retains(world.risk, after.risk, terms) && Judged(world, after, terms)
    decreases plan
  {
    hide Upholds, DoAct, Licensed, Advance;
    if count == 0 || plan.End? {
      RetainsItself(world.risk, terms);
      UpholdsResting(origin, world, track, terms);
    } else {
      ActKeeps(origin, world, plan.act, track, terms);
      var (next, outcome) := DoAct(origin, world, plan.act);
      if outcome == Done {
        CutPlanKeeps(origin, next, plan.rest, count - 1, Advance(track, plan.act), terms);
        JudgedOnward(world, next, PerformFirst(origin, next, plan.rest, count - 1), terms);
      }
    }
  }

  // ---------------------------------------------------------------- the plans are disciplined

  lemma NoteIsFree(cycleId: Option<nat>, kind: Kind, content: Content, rest: Plan, track: Track,
                   terms: Terms)
    requires kind != OrderSubmitted
    ensures Sanctioned(Then(Note(cycleId, kind, content), rest), track, terms)
            == Sanctioned(rest, track, terms)
  {
    assert Advance(track, Note(cycleId, kind, content)) == track;
  }

  /** Storing the state held in memory and ending is always allowed when the two agree. */
  lemma StoreAndEnd(track: Track, risk: LiveRiskState, ending: Ending, terms: Terms)
    requires Retains(track.held, Some(risk), terms) && Fits(risk, track.sent, terms)
    requires TimeReported(track, risk.lastReconciliationMs)
    ensures Sanctioned(Then(StoreRisk(risk), End(ending, risk)), track, terms)
  {
    assert Sanctioned(End(ending, risk), Advance(track, StoreRisk(risk)), terms);
  }

  /** The clock shows the day, not before the day of the state if it never steps back. */
  predicate Reads(day: int, risk: LiveRiskState, terms: Terms) {
    && terms.watch.now == Some(day)
    && (terms.today.Some? ==> risk.tradingDay <= day <= terms.today.value)
  }

  lemma UpdateFits(track: Track, risk: LiveRiskState, account: AccountSnapshot, day: int, terms: Terms)
    requires Retains(track.held, Some(risk), terms) && Fits(risk, track.sent, terms)
    requires Reads(day, risk, terms)
    ensures var later := UpdateRiskState(risk, account, day);
            && Retains(track.held, Some(later), terms) && Fits(later, track.sent, terms)
            && later.tradingDay == day && Reads(day, later, terms)
            && later.lastReconciliationMs == risk.lastReconciliationMs
  {
  }

  lemma ReconcileSanctioned(leverage: u8, cycleId: Option<nat>, env: ReconcileEnv, day: int,
                            risk: LiveRiskState, submitted: bool, track: Track, terms: Terms)
    requires InStep(track, risk, terms) && Reads(day, risk, terms)
    ensures Sanctioned(ReconcilePlan(leverage, cycleId, env, day, risk, submitted), track, terms)
  {
    var plan := ReconcilePlan(leverage, cycleId, env, day, risk, submitted);
    if plan.Then? {
      hide ValidAccount, UpdateRiskState;
      var start, end := risk.lastReconciliationMs, env.at.value;
      var later := AfterReconcile(risk, env, day);
      UpdateFits(track, risk.(lastReconciliationMs := end), env.account.value, day, terms);
      var fills := WindowOf(cycleId, FillsReported, env.contents.fills, start, end);
      var funding := WindowOf(cycleId, FundingReported, env.contents.funding, start, end);
      var one := Advance(track, fills);
      var two := Advance(one, funding);
      assert two.fills == Some(end) && two.funding == Some(end);
      assert two.held == track.held && two.sent == track.sent;
      var store := plan.rest.rest.rest.rest;
      StoreAndEnd(two, later, Completed(submitted), terms);
      NoteIsFree(cycleId, PortfolioObserved, env.contents.portfolio, store, two, terms);
      NoteIsFree(cycleId, Reconciled, env.contents.reconciliation, plan.rest.rest.rest, two, terms);
      assert Sanctioned(plan.rest.rest, two, terms);
      assert Sanctioned(plan.rest, one, terms);
    }
  }

  lemma DeclinedSanctioned(env: CycleEnv, risk: LiveRiskState, track: Track, terms: Terms)
    requires InStep(track, risk, terms)
    ensures Sanctioned(Declined(env, risk), track, terms)
  {
    StoreAndEnd(track, risk, Completed(false), terms);
    NoteIsFree(Some(env.cycleId), PolicyOutcome, env.contents.outcome, Declined(env, risk).rest, track,
               terms);
  }

  /** Counting an order makes room for one submission of the day. */
  lemma CountedFits(track: Track, risk: LiveRiskState, terms: Terms)
    requires InStep(track, risk, terms) && track.day == terms.watch.day
    requires risk.ordersToday < terms.Cap() && Reads(risk.tradingDay, risk, terms)
    ensures var later := Counted(risk);
            && Retains(track.held, Some(later), terms)
            && Fits(later, track.sent, terms)
            && Fits(later, track.sent + (if risk.tradingDay == track.day then 1 else 0), terms)
  {
  }

  /** After the venue has accepted the order, or not. */
  lemma SentSanctioned(config: LiveConfig, env: CycleEnv, later: LiveRiskState, track: Track, terms: Terms)
    requires InStep(track, later, terms) && Reads(env.day, later, terms)
    ensures Sanctioned(if !env.dispatch.accepted then End(VenueFailed, later)
                       else
                         Then(Note(Some(env.cycleId), VenueAcknowledgement, env.contents.acknowledgement),
                         ReconcilePlan(config.isolatedLeverage, Some(env.cycleId), env.reconcile, env.day,
                                       later, true)),
                       track, terms)
  {
    hide ReconcilePlan, InStep, Reads;
    if env.dispatch.accepted {
      var rest := ReconcilePlan(config.isolatedLeverage, Some(env.cycleId), env.reconcile, env.day, later,
                                true);
      ReconcileSanctioned(config.isolatedLeverage, Some(env.cycleId), env.reconcile, env.day, later, true,
                          track, terms);
      NoteIsFree(Some(env.cycleId), VenueAcknowledgement, env.contents.acknowledgement, rest, track, terms);
    }
  }

  /** The order is counted in durable state before the venue sees it, and announced before that. */
  lemma DispatchSanctioned(config: LiveConfig, env: CycleEnv, order: OrderDecision, basis: Basis,
                           track: Track, terms: Terms)
    requires InStep(track, basis.risk, terms) && Reads(env.day, basis.risk, terms)
    requires track.day == terms.watch.day && basis.risk.ordersToday < terms.Cap()
    requires Justified(terms.config,
                       Submission(env.day, env.dispatch.clientOrderId, order, basis))
    ensures Sanctioned(DispatchPlan(config, env, order, basis), track, terms)
  {
    hide ReconcilePlan, Fits, Justified, Retains;
    var plan := DispatchPlan(config, env, order, basis);
    var later := Counted(basis.risk);
    assert basis.risk.tradingDay == env.day by {
      JustifiedDay(terms.config, Submission(env.day, env.dispatch.clientOrderId, order, basis));
    }
    CountedFits(track, basis.risk, terms);
    var announced := Advance(track, plan.rest.act);
    var counted := Advance(announced, StoreRisk(later));
    var submit := plan.rest.rest.rest;
    var sent := Advance(counted, submit.act);
    assert counted.held == Some(later) && counted.sent == track.sent;
    RetainsItself(Some(later), terms);
    SentSanctioned(config, env, later, sent, terms);
    assert Sanctioned(submit, counted, terms);
    assert Sanctioned(plan.rest.rest, announced, terms);
    assert Sanctioned(plan.rest, track, terms);
    NoteIsFree(Some(env.cycleId), PolicyOutcome, env.contents.outcome, plan.rest, track, terms);
  }

  lemma JustifiedDay(config: LiveConfig, submission: Submission)
    requires Justified(config, submission)
    ensures submission.basis.risk.tradingDay == submission.day
  {
  }

  /** The book covers the order, if its swept levels are sorted. */
  predicate WithinDisplay(basis: Basis, order: OrderDecision)
    requires basis.view.book.HasTop(basis.proposal.side)
    requires MarketableLimit(basis.view.book, basis.proposal.side).Some?
  {
    var book, side := basis.view.book, basis.proposal.side;
    Sorted(book.Opposing(side), side, Swept(book.Opposing(side), side, book.Top(side))) ==>
      Covers(book, side, MarketableProposal(basis).limitPrice, order.quantity)
  }

  /** On a sorted book every justified order is covered by what the book displays up to its limit,
      to within one unit of notional: the policy compared it with the depth of that very book. */
  lemma DispatchedWithinDisplay(config: LiveConfig, submission: Submission)
    requires Justified(config, submission)
    ensures Askable(config, submission.basis) && WithinDisplay(submission.basis, submission.order)
  {
    JustifiedQuestion(config, submission);
    hide Justified, EvaluateProposal;
    AskableWithinDisplay(config, submission.basis, submission.order);
  }

  lemma AskableWithinDisplay(config: LiveConfig, basis: Basis, order: OrderDecision)
    requires Askable(config, basis)
    requires EvaluateProposal(MarketableProposal(basis), DispatchContext(config, basis)) == Ok(order)
    ensures WithinDisplay(basis, order)
  {
    hide EvaluateProposal, Covers, FromBook, Sorted, Swept;
    var book, side := basis.view.book, basis.proposal.side;
    if Sorted(book.Opposing(side), side, Swept(book.Opposing(side), side, book.Top(side))) {
      AskableIsFromBook(config, basis);
      ApprovedWithinDisplay(book, MarketableProposal(basis), DispatchContext(config, basis), order);
    }
  }

  lemma AskableIsFromBook(config: LiveConfig, basis: Basis)
    requires Askable(config, basis)
    requires var book, side := basis.view.book, basis.proposal.side;
             Sorted(book.Opposing(side), side, Swept(book.Opposing(side), side, book.Top(side)))
    ensures FromBook(basis.view.book, basis.proposal.side, MarketableProposal(basis).limitPrice,
                     AvailableDepth(basis.proposal.side, DispatchContext(config, basis).market))
  {
    hide MarketOf, Depth, Sorted, StopReadable, PriceOf, Swept, MarketView.Usable,
         BookSnapshot.DepthReadable;
    MarketDepth(basis.view, basis.proposal.side);
    LoopsAgree(basis.view.book, basis.proposal.side);
  }

  lemma JustifiedQuestion(config: LiveConfig, submission: Submission)
    requires Justified(config, submission)
    ensures var basis := submission.basis;
            && Askable(config, basis)
            && EvaluateProposal(MarketableProposal(basis), DispatchContext(config, basis))
               == Ok(submission.order)
  {
    hide EvaluateProposal, MarketOf, MarketableLimit, Priced, ValidAccount, DispatchContext;
  }

  /** The basis is one an order can be judged on. */
  predicate Judgeable(config: LiveConfig, basis: Basis, day: int) {
    && Healthy(basis.account, config.isolatedLeverage)
    && basis.risk.tradingDay == day && basis.account.equity <= basis.risk.peakEquity
  }

  lemma HealthyIsValid(account: AccountSnapshot, leverage: u8)
    ensures ValidAccount(account, leverage) <==> Healthy(account, leverage)
  {
  }

  lemma VerdictJustifies(config: LiveConfig, day: int, id: nat, basis: Basis)
    requires Askable(config, basis) && Judgeable(config, basis, day) && Verdict(config, basis).Ok?
    ensures Justified(config, Submission(day, id, Verdict(config, basis).value, basis))
  {
    hide Askable, Healthy, Verdict;
  }

  lemma OrderSanctioned(config: LiveConfig, env: CycleEnv, basis: Basis, track: Track, terms: Terms)
    requires InStep(track, basis.risk, terms) && Reads(env.day, basis.risk, terms)
    requires track.day == terms.watch.day && terms.config == config
    requires basis.view.Usable() && Judgeable(config, basis, env.day)
    ensures Sanctioned(OrderPlan(config, env, basis), track, terms)
  {
    hide DispatchPlan, Declined, Verdict, MarketableLimit, Retains, Fits, MarketView.Usable, Judgeable,
         BookSnapshot.HasTop, Justified, InStep, Reads;
    if Askable(config, basis) {
      DeclinedSanctioned(env, basis.risk, track, terms);
      if Verdict(config, basis).Ok? {
        VerdictJustifies(config, env.day, env.dispatch.clientOrderId, basis);
        VerdictWithinBudget(config, basis);
        DispatchSanctioned(config, env, Verdict(config, basis).value, basis, track, terms);
      }
    }
  }

  lemma VerdictWithinBudget(config: LiveConfig, basis: Basis)
    requires Askable(config, basis) && Verdict(config, basis).Ok?
    ensures basis.risk.ordersToday < config.rules.maxOrdersDay
  {
    hide EvaluateProposal, MarketableLimit, MarketOf, MarketView.Usable;
    PolicyTheorems.ApprovalNeedsOrderBudget(MarketableProposal(basis), DispatchContext(config, basis));
  }

  lemma ProposalSanctioned(config: LiveConfig, env: CycleEnv, proposal: Proposal, risk: LiveRiskState,
                           track: Track, terms: Terms)
    requires InStep(track, risk, terms) && Reads(env.day, risk, terms)
    requires terms.config == config && track.day == terms.watch.day
    ensures Sanctioned(ProposalPlan(config, env, proposal, risk), track, terms)
  {
    hide OrderPlan, UpdateRiskState, ValidAccount, Fits, Retains;
    var plan := ProposalPlan(config, env, proposal, risk);
    if plan.Then? {
      var account := env.dispatch.account.value;
      var dated := UpdateRiskState(risk, account, env.day);
      UpdateFits(track, risk, account, env.day, terms);
      var basis := Basis(account, ObservedView(env.dispatch), proposal, dated);
      HealthyIsValid(account, config.isolatedLeverage);
      OrderSanctioned(config, env, basis, track, terms);
      NoteIsFree(Some(env.cycleId), BookObserved, env.contents.dispatchBook,
                 OrderPlan(config, env, basis), track, terms);
    }
  }

  lemma {:induction false} ReceiptsAreFree(env: CycleEnv, receipts: seq<Content>, rest: Plan,
                                           track: Track, terms: Terms)
    requires Sanctioned(rest, track, terms)
    ensures Sanctioned(ReceiptPlan(env, receipts, rest), track, terms)
    decreases |receipts|
  {
    if receipts != [] {
      ReceiptsAreFree(env, receipts[1..], rest, track, terms);
      NoteIsFree(Some(env.cycleId), InferenceReceipt, receipts[0],
                 ReceiptPlan(env, receipts[1..], rest), track, terms);
    }
  }

  lemma DecisionSanctioned(config: LiveConfig, env: CycleEnv, risk: LiveRiskState, track: Track,
                           terms: Terms)
    requires InStep(track, risk, terms) && Reads(env.day, risk, terms)
    requires terms.config == config && track.day == terms.watch.day
    ensures Sanctioned(DecisionPlan(config, env, risk), track, terms)
  {
    hide ProposalPlan, Declined, ReceiptPlan, Retains, Fits;
    var cycleId := Some(env.cycleId);
    match env.decision {
      case Failed =>
        StoreAndEnd(track, risk, ModelFailed, terms);
        NoteIsFree(cycleId, CycleFailed, env.contents.failure, DecisionPlan(config, env, risk).rest,
                   track, terms);
      case Decided(receipts, proposal) =>
        var decided := DecidedPlan(config, env, proposal, risk);
        if proposal.None? {
          DeclinedSanctioned(env, risk, track, terms);
        } else {
          ProposalSanctioned(config, env, proposal.value, risk, track, terms);
        }
        NoteIsFree(cycleId, ProposalMade, env.contents.proposal, decided.rest, track, terms);
        ReceiptsAreFree(env, receipts, decided, track, terms);
    }
  }

  /** Every cycle is disciplined, whatever the environment answers, on the day the clock shows. */
  lemma CycleSanctioned(config: LiveConfig, env: CycleEnv, risk: LiveRiskState, track: Track, terms: Terms)
    requires InStep(track, risk, terms) && Reads(env.day, risk, terms)
    requires terms.config == config && track.day == terms.watch.day
    ensures Sanctioned(CyclePlan(config, env, risk), track, terms)
  {
    hide DecisionPlan, UpdateRiskState, ValidAccount, Retains, Fits;
    var cycleId := Some(env.cycleId);
    var plan := CyclePlan(config, env, risk);
    if plan.Then? {
      var dated := UpdateRiskState(risk, env.account.value, env.day);
      UpdateFits(track, risk, env.account.value, env.day, terms);
      DecisionSanctioned(config, env, dated, track, terms);
      var decision := DecisionPlan(config, env, dated);
      NoteIsFree(cycleId, PortfolioObserved, env.contents.portfolio, decision, track, terms);
      NoteIsFree(cycleId, CandleClosed, env.contents.candles, plan.rest.rest.rest, track, terms);
      NoteIsFree(cycleId, BookObserved, env.contents.book, plan.rest.rest, track, terms);
      NoteIsFree(cycleId, CycleStarted, env.contents.started, plan.rest, track, terms);
    }
  }

  // ---------------------------------------------------------------- counting cycles

  predicate IsCycle(kind: Kind) {
    kind.CycleStarted? || kind.MissedCycle?
  }

  function ActCycles(act: Act): nat {
    if act.EmitEvent? && IsCycle(act.draft.kind) then 1 else 0
  }

  function PlanCycles(plan: Plan): nat
    decreases plan
  {
    match plan
    case End(_, _) => 0
    case Then(act, rest) => ActCycles(act) + PlanCycles(rest)
  }

  /** The orders a plan sends if nothing fails, and how it then ends. */
  function Sendings(plan: Plan): seq<Submission>
    decreases plan
  {
    match plan
    case End(_, _) => []
    case Then(act, rest) => (if act.SubmitIoc? then [act.submission] else []) + Sendings(rest)
  }

  function EndingOf(plan: Plan): Ending
    decreases plan
  {
    match plan
    case End(ending, _) => ending
    case Then(_, rest) => EndingOf(rest)
  }

  /** The risk state a plan ends with in memory, and the one it leaves stored. */
  function RiskOf(plan: Plan): LiveRiskState
    decreases plan
  {
    match plan
    case End(_, risk) => risk
    case Then(_, rest) => RiskOf(rest)
  }

  function StoredBy(plan: Plan, held: Option<LiveRiskState>): Option<LiveRiskState>
    decreases plan
  {
    match plan
    case End(_, _) => held
    case Then(act, rest) => StoredBy(rest, if act.StoreRisk? then Some(act.state) else held)
  }

  lemma QuietAct(act: Act, rest: Plan)
    requires !act.SubmitIoc?
    ensures var plan := Then(act, rest);
            && PlanCycles(plan) == ActCycles(act) + PlanCycles(rest)
            && Sendings(plan) == Sendings(rest) && EndingOf(plan) == EndingOf(rest)
  {
    assert [] + Sendings(rest) == Sendings(rest);
  }

  /** A plan that ends sends exactly its orders; one that stops sends a prefix of them. */
  lemma {:induction false} PerformSends(origin: Origin, world: World, plan: Plan)
    ensures var (after, finish) := Perform(origin, world, plan);
            && world.submissions <= after.submissions <= world.submissions + Sendings(plan)
            && (finish.Ended? ==>
                  && finish.ending == EndingOf(plan)
                  && after.submissions == world.submissions + Sendings(plan))
    decreases plan
  {
    hide Append, Flush;
    if plan.Then? {
      var (next, outcome) := DoAct(origin, world, plan.act);
      if outcome == Done {
        PerformSends(origin, next, plan.rest);
        assert next.submissions
               == world.submissions + (if plan.act.SubmitIoc? then [plan.act.submission] else []);
      }
    }
  }

  lemma {:induction false} CutPlanSends(origin: Origin, world: World, plan: Plan, count: nat)
    ensures var after := PerformFirst(origin, world, plan, count);
            world.submissions <= after.submissions <= world.submissions + Sendings(plan)
    decreases plan
  {
    hide Append, Flush;
    if count > 0 && plan.Then? {
      var (next, outcome) := DoAct(origin, world, plan.act);
      if outcome == Done {
        CutPlanSends(origin, next, plan.rest, count - 1);
        assert next.submissions
               == world.submissions + (if plan.act.SubmitIoc? then [plan.act.submission] else []);
      }
    }
  }

  lemma {:induction false} SameKinds(before: seq<Row>, after: seq<Row>, kind: Kind)
    requires |before| == |after|
    requires forall i :: 0 <= i < |before| ==> after[i].envelope == before[i].envelope
    ensures CountKind(after, kind) == CountKind(before, kind)
  {
    if before != [] {
      var n := |before| - 1;
      SameKinds(before[..n], after[..n], kind);
    }
  }

  lemma GrownCycles(before: seq<Row>, after: seq<Row>)
    requires Continues(before, after) && |after| <= |before| + 1
    ensures Cycles(after)
            == Cycles(before)
               + (if |after| > |before| && IsCycle(after[|before|].envelope.fields.kind) then 1 else 0)
  {
    var n := |before|;
    SameKinds(before, after[..n], CycleStarted);
    SameKinds(before, after[..n], MissedCycle);
    if |after| > n {
      assert after[..|after| - 1] == after[..n];
    } else {
      assert after == after[..n];
    }
  }

  /** An act that fails counts at most what it would have counted. */
  lemma ActCounts(origin: Origin, world: World, act: Act)
    requires Settled(origin.crypto, world.wire)
    ensures var (next, outcome) := DoAct(origin, world, act);
            && Settled(origin.crypto, next.wire)
            && Cycles(Own(origin, world)) <= Cycles(Own(origin, next))
                 <= Cycles(Own(origin, world)) + ActCycles(act)
            && (outcome == Done ==>
                  Cycles(Own(origin, next)) == Cycles(Own(origin, world)) + ActCycles(act))
  {
    hide Append, Flush, Settled, RunRows, Continues, Cycles;
    match act {
      case EmitEvent(draft) =>
        AppendEffect(origin, world.wire, draft);
        GrownCycles(Own(origin, world), Own(origin, DoAct(origin, world, act).0));
      case FlushFirst =>
        FlushSettles(origin, world.wire);
        GrownCycles(Own(origin, world), Own(origin, DoAct(origin, world, act).0));
      case StoreRisk(_) =>
      case SubmitIoc(_) =>
    }
  }

  lemma {:induction false} PlanCounts(origin: Origin, world: World, plan: Plan)
    requires Settled(origin.crypto, world.wire)
    ensures var (after, finish) := Perform(origin, world, plan);
            && Settled(origin.crypto, after.wire)
            && Cycles(Own(origin, world)) <= Cycles(Own(origin, after))
                 <= Cycles(Own(origin, world)) + PlanCycles(plan)
            && (finish.Ended? ==>
                  Cycles(Own(origin, after)) == Cycles(Own(origin, world)) + PlanCycles(plan))
    decreases plan
  {
    hide DoAct, Settled, Own, Cycles;
    if plan.Then? {
      ActCounts(origin, world, plan.act);
      var (next, outcome) := DoAct(origin, world, plan.act);
      if outcome == Done {
        PlanCounts(origin, next, plan.rest);
      }
    }
  }

  lemma {:induction false} CutPlanCounts(origin: Origin, world: World, plan: Plan, count: nat)
    requires Settled(origin.crypto, world.wire)
    ensures var after := PerformFirst(origin, world, plan, count);
            && Settled(origin.crypto, after.wire)
            && Cycles(Own(origin, world)) <= Cycles(Own(origin, after))
                 <= Cycles(Own(origin, world)) + PlanCycles(plan)
    decreases plan
  {
    hide DoAct, Settled, Own, Cycles;
    if count > 0 && plan.Then? {
      ActCounts(origin, world, plan.act);
      var (next, outcome) := DoAct(origin, world, plan.act);
      if outcome == Done {
        CutPlanCounts(origin, next, plan.rest, count - 1);
      }
    }
  }

  lemma ReconcileCountsNothing(leverage: u8, cycleId: Option<nat>, env: ReconcileEnv, day: int,
                               risk: LiveRiskState, submitted: bool)
    ensures var plan := ReconcilePlan(leverage, cycleId, env, day, risk, submitted);
            && PlanCycles(plan) == 0 && Sendings(plan) == []
            && (EndingOf(plan) == Completed(submitted) || !Survives(EndingOf(plan)))
  {
    hide ValidAccount, UpdateRiskState;
    var plan := ReconcilePlan(leverage, cycleId, env, day, risk, submitted);
    if plan.Then? {
      var store := plan.rest.rest.rest.rest;
      QuietAct(store.act, store.rest);
      QuietAct(plan.rest.rest.rest.act, store);
      QuietAct(plan.rest.rest.act, plan.rest.rest.rest);
      QuietAct(plan.rest.act, plan.rest.rest);
      QuietAct(plan.act, plan.rest);
    }
  }

  lemma {:induction false} ReceiptsCountNothing(env: CycleEnv, receipts: seq<Content>, rest: Plan)
    ensures var plan := ReceiptPlan(env, receipts, rest);
            && PlanCycles(plan) == PlanCycles(rest) && Sendings(plan) == Sendings(rest)
            && EndingOf(plan) == EndingOf(rest)
    decreases |receipts|
  {
    if receipts != [] {
      ReceiptsCountNothing(env, receipts[1..], rest);
    }
  }

  lemma DeclinedCountsNothing(env: CycleEnv, risk: LiveRiskState)
    ensures var plan := Declined(env, risk);
            PlanCycles(plan) == 0 && Sendings(plan) == [] && EndingOf(plan) == Completed(false)
  {
    var store := Declined(env, risk).rest;
    QuietAct(store.act, store.rest);
    QuietAct(Declined(env, risk).act, store);
  }

  /** The view is the refreshed one, observed at the later of the two times the clock showed. */
  predicate Observes(dispatch: DispatchEnv, view: MarketView) {
    && dispatch.nowMs.Some? && dispatch.view.Some?
    && view == dispatch.view.value.(observedAtMs := view.observedAtMs)
    && dispatch.nowMs.value <= view.observedAtMs
    && dispatch.view.value.observedAtMs <= view.observedAtMs
    && (view.observedAtMs == dispatch.nowMs.value
        || view.observedAtMs == dispatch.view.value.observedAtMs)
  }

  /** The execution gate was open, and the order is the policy's verdict on what the cycle met at
      dispatch: the refreshed account, the market built from the refreshed book, the model's proposal,
      and the risk state in memory. */
  predicate Answers(config: LiveConfig, env: CycleEnv, dated: LiveRiskState, sent: Submission) {
    && env.dispatch.permitted
    && sent.day == env.day && sent.clientOrderId == env.dispatch.clientOrderId
    && env.dispatch.account == Some(sent.basis.account)
    && Observes(env.dispatch, sent.basis.view)
    && env.decision.Decided? && env.decision.proposal == Some(sent.basis.proposal)
    && sent.basis.risk == UpdateRiskState(dated, sent.basis.account, env.day)
    && Justified(config, sent)
  }

  /** The plan sends at most one order, which answers the cycle, and an ending that says whether an
      order was sent tells the truth. */
  predicate Truthful(config: LiveConfig, plan: Plan, env: CycleEnv, dated: LiveRiskState) {
    var sent := Sendings(plan);
    && |sent| <= 1
    && (sent != [] ==> Answers(config, env, dated, sent[0]))
    && (EndingOf(plan) == Completed(true) ==> |sent| == 1)
    && (EndingOf(plan) == Completed(false) || EndingOf(plan) == ModelFailed ==> sent == [])
  }

  lemma DispatchCountsNothing(config: LiveConfig, env: CycleEnv, order: OrderDecision, basis: Basis)
    ensures var plan := DispatchPlan(config, env, order, basis);
            && PlanCycles(plan) == 0
            && Sendings(plan) == [Submission(env.day, env.dispatch.clientOrderId, order, basis)]
            && (EndingOf(plan) == Completed(true) || !Survives(EndingOf(plan)))
  {
    hide ReconcilePlan;
    var plan := DispatchPlan(config, env, order, basis);
    ReconcileCountsNothing(config.isolatedLeverage, Some(env.cycleId), env.reconcile, env.day,
                           Counted(basis.risk), true);
    var sent := plan.rest.rest.rest.rest;
    assert PlanCycles(sent) == 0 && Sendings(sent) == [];
    assert EndingOf(sent) == Completed(true) || !Survives(EndingOf(sent));
    var submission := Submission(env.day, env.dispatch.clientOrderId, order, basis);
    assert PlanCycles(plan.rest.rest) == 0 && Sendings(plan.rest.rest) == [submission];
    assert EndingOf(plan.rest.rest) == EndingOf(sent);
    QuietAct(plan.rest.act, plan.rest.rest);
    QuietAct(plan.act, plan.rest);
  }

  lemma DecisionCountsNothing(config: LiveConfig, env: CycleEnv, risk: LiveRiskState)
    ensures var plan := DecisionPlan(config, env, risk);
            PlanCycles(plan) == 0 && Truthful(config, plan, env, risk)
  {
    hide ProposalPlan, ReceiptPlan, UpdateRiskState, Justified, ObservedView;
    match env.decision {
      case Failed =>
        var store := DecisionPlan(config, env, risk).rest;
        QuietAct(store.act, store.rest);
        QuietAct(DecisionPlan(config, env, risk).act, store);
      case Decided(receipts, proposal) =>
        var decided := DecidedPlan(config, env, proposal, risk);
        if proposal.None? {
          DeclinedCountsNothing(env, risk);
        } else {
          ProposalCountsNothing(config, env, proposal.value, risk);
        }
        QuietAct(decided.act, decided.rest);
        ReceiptsCountNothing(env, receipts, decided);
    }
  }

  lemma ObservedIsObserved(dispatch: DispatchEnv)
    requires dispatch.nowMs.Some? && dispatch.view.Some?
    ensures Observes(dispatch, ObservedView(dispatch))
  {
  }

  lemma UpdatedDay(risk: LiveRiskState, account: AccountSnapshot, day: int)
    ensures UpdateRiskState(risk, account, day).tradingDay == day
  {
  }

  lemma OrderCountsNothing(config: LiveConfig, env: CycleEnv, basis: Basis, dated: LiveRiskState)
    requires basis.view.Usable() && Judgeable(config, basis, env.day)
    requires env.dispatch.account == Some(basis.account) && Observes(env.dispatch, basis.view)
    requires env.decision.Decided? && env.decision.proposal == Some(basis.proposal)
    requires basis.risk == UpdateRiskState(dated, basis.account, env.day)
    ensures var plan := OrderPlan(config, env, basis);
            PlanCycles(plan) == 0 && Truthful(config, plan, env, dated)
  {
    hide DispatchPlan, Declined, Verdict, MarketableLimit, BookSnapshot.HasTop, Observes, Judgeable,
         MarketView.Usable, UpdateRiskState, Justified;
    if Askable(config, basis) {
      DeclinedCountsNothing(env, basis.risk);
      if Verdict(config, basis).Ok? && env.dispatch.permitted {
        VerdictJustifies(config, env.day, env.dispatch.clientOrderId, basis);
        DispatchCountsNothing(config, env, Verdict(config, basis).value, basis);
      }
    }
  }

  lemma ProposalCountsNothing(config: LiveConfig, env: CycleEnv, proposal: Proposal, risk: LiveRiskState)
    requires env.decision.Decided? && env.decision.proposal == Some(proposal)
    ensures var plan := ProposalPlan(config, env, proposal, risk);
            PlanCycles(plan) == 0 && Truthful(config, plan, env, risk)
  {
    hide OrderPlan, UpdateRiskState, ValidAccount, Justified, ObservedView;
    var plan := ProposalPlan(config, env, proposal, risk);
    if plan.Then? {
      var account := env.dispatch.account.value;
      var dated := UpdateRiskState(risk, account, env.day);
      HealthyIsValid(account, config.isolatedLeverage);
      UpdatedDay(risk, account, env.day);
      ObservedIsObserved(env.dispatch);
      OrderCountsNothing(config, env, Basis(account, ObservedView(env.dispatch), proposal, dated), risk);
      QuietAct(plan.act, plan.rest);
    }
  }

  /** A cycle counts once exactly when it got as far as its first event; every ending that leaves
      the run alive did. */
  lemma CycleCountsOnce(config: LiveConfig, env: CycleEnv, risk: LiveRiskState)
    ensures PlanCycles(CyclePlan(config, env, risk)) == if CyclePlan(config, env, risk).Then? then 1 else 0
    ensures var plan := CyclePlan(config, env, risk); plan.End? ==> !Survives(plan.ending)
    ensures var plan := CyclePlan(config, env, risk);
            if plan.End? then Sendings(plan) == []
            else Truthful(config, plan, env, UpdateRiskState(risk, env.account.value, env.day))
  {
    hide DecisionPlan, UpdateRiskState, ValidAccount, Justified, ObservedView;
    var plan := CyclePlan(config, env, risk);
    if plan.Then? {
      DecisionCountsNothing(config, env, UpdateRiskState(risk, env.account.value, env.day));
      var third := plan.rest.rest.rest;
      QuietAct(third.act, third.rest);
      QuietAct(plan.rest.rest.act, third);
      QuietAct(plan.rest.act, plan.rest.rest);
      QuietAct(plan.act, plan.rest);
    }
  }

  /** A cycle sends at most one order to the venue. That order is the policy's verdict on the account
      and book refreshed at dispatch, the model's proposal and the risk state in memory; and the cycle
      reports that it sent an order exactly when it did. */
  lemma CycleReportsTruth(config: LiveConfig, origin: Origin, world: World, env: CycleEnv,
                          risk: LiveRiskState)
    ensures var (after, finish) := Perform(origin, world, CyclePlan(config, env, risk));
            && world.submissions <= after.submissions
            && |world.submissions| <= |after.submissions| <= |world.submissions| + 1
            && (|after.submissions| > |world.submissions| ==>
                  && env.account.Some?
                  && Answers(config, env, UpdateRiskState(risk, env.account.value, env.day),
                             after.submissions[|world.submissions|]))
            && (finish.Ended? && Survives(finish.ending) ==>
                  (finish.ending == Completed(true)
                   <==> |after.submissions| == |world.submissions| + 1))
  {
    CycleBegins(config, env, risk);
    hide CyclePlan, Perform, Sendings, EndingOf, Answers, UpdateRiskState;
    CycleCountsOnce(config, env, risk);
    PerformSends(origin, world, CyclePlan(config, env, risk));
  }

  lemma CycleBegins(config: LiveConfig, env: CycleEnv, risk: LiveRiskState)
    ensures CyclePlan(config, env, risk).Then? ==> env.account.Some?
    ensures CyclePlan(config, env, risk).End? ==> !Survives(EndingOf(CyclePlan(config, env, risk)))
  {
    hide DecisionPlan, UpdateRiskState, ValidAccount;
  }

  // ---------------------------------------------------------------- exactly when an order is sent

  /** What an order would be judged on at dispatch. */
  ghost predicate JudgedOn(env: CycleEnv, risk: LiveRiskState, basis: Basis) {
    && env.account.Some? && env.dispatch.account == Some(basis.account)
    && Observes(env.dispatch, basis.view)
    && env.decision.Decided? && env.decision.proposal == Some(basis.proposal)
    && basis.risk == UpdateRiskState(UpdateRiskState(risk, env.account.value, env.day), basis.account,
                                     env.day)
  }

  /** Everything the cycle asks for answers: clock, account, books and candles. */
  predicate Supplied(config: LiveConfig, env: CycleEnv) {
    && env.nowMs.Some? && env.snapshots && env.candles
    && env.account.Some? && Healthy(env.account.value, config.isolatedLeverage)
  }

  /** The cycle sends an order exactly when everything answers, both accounts are healthy, the model
      proposed one, the policy approves it on the refreshed book and account, and the execution gate is
      open. */
  lemma CycleSendsIff(config: LiveConfig, env: CycleEnv, risk: LiveRiskState)
    ensures Sendings(CyclePlan(config, env, risk)) != []
            <==> && Supplied(config, env) && env.dispatch.permitted
                 && exists basis :: && JudgedOn(env, risk, basis)
                                    && Healthy(basis.account, config.isolatedLeverage)
                                    && Askable(config, basis) && Verdict(config, basis).Ok?
  {
    hide DecisionPlan, UpdateRiskState, ValidAccount, Healthy, Askable, Verdict, Observes;
    var plan := CyclePlan(config, env, risk);
    if env.account.Some? {
      HealthyIsValid(env.account.value, config.isolatedLeverage);
    }
    if plan.Then? {
      var dated := UpdateRiskState(risk, env.account.value, env.day);
      var third := plan.rest.rest.rest;
      QuietAct(third.act, third.rest);
      QuietAct(plan.rest.rest.act, third);
      QuietAct(plan.rest.act, plan.rest.rest);
      QuietAct(plan.act, plan.rest);
      DecisionSendsIff(config, env, dated);
    }
  }

  lemma DecisionSendsIff(config: LiveConfig, env: CycleEnv, dated: LiveRiskState)
    ensures Sendings(DecisionPlan(config, env, dated)) != []
            <==> && env.dispatch.permitted
                 && exists basis :: && JudgedNext(env, dated, basis)
                                    && Healthy(basis.account, config.isolatedLeverage)
                                    && Askable(config, basis) && Verdict(config, basis).Ok?
  {
    hide ProposalPlan, Declined, ReceiptPlan, Healthy, Askable, Verdict, Observes, UpdateRiskState;
    match env.decision {
      case Failed =>
        var store := DecisionPlan(config, env, dated).rest;
        QuietAct(store.act, store.rest);
        QuietAct(DecisionPlan(config, env, dated).act, store);
      case Decided(receipts, proposal) =>
        var decided := DecidedPlan(config, env, proposal, dated);
        ReceiptsCountNothing(env, receipts, decided);
        QuietAct(decided.act, decided.rest);
        if proposal.None? {
          DeclinedCountsNothing(env, dated);
        } else {
          ProposalSendsIff(config, env, proposal.value, dated);
        }
    }
  }

  /** What an order would be judged on, from the risk state the cycle dated. */
  ghost predicate JudgedNext(env: CycleEnv, dated: LiveRiskState, basis: Basis) {
    && env.dispatch.account == Some(basis.account)
    && Observes(env.dispatch, basis.view)
    && env.decision.Decided? && env.decision.proposal == Some(basis.proposal)
    && basis.risk == UpdateRiskState(dated, basis.account, env.day)
  }

  lemma ObservesOne(dispatch: DispatchEnv, view: MarketView)
    requires Observes(dispatch, view)
    ensures view == ObservedView(dispatch)
  {
  }

  lemma ProposalSendsIff(config: LiveConfig, env: CycleEnv, proposal: Proposal, dated: LiveRiskState)
    requires env.decision.Decided? && env.decision.proposal == Some(proposal)
    ensures Sendings(ProposalPlan(config, env, proposal, dated)) != []
            <==> && env.dispatch.permitted
                 && exists basis :: && JudgedNext(env, dated, basis)
                                    && Healthy(basis.account, config.isolatedLeverage)
                                    && Askable(config, basis) && Verdict(config, basis).Ok?
  {
    hide OrderPlan, UpdateRiskState, ValidAccount, Healthy, Verdict, Observes, MarketableLimit,
         MarketView.Usable, ObservedView, BookSnapshot.HasTop;
    var plan, dispatch := ProposalPlan(config, env, proposal, dated), env.dispatch;
    if dispatch.account.Some? {
      HealthyIsValid(dispatch.account.value, config.isolatedLeverage);
    }
    forall view | Observes(dispatch, view)
      ensures dispatch.nowMs.Some? && dispatch.view.Some? && view == ObservedView(dispatch)
    {
      ObservesOne(dispatch, view);
      ObservesSomething(dispatch, view);
    }
    if plan.Then? {
      var account := dispatch.account.value;
      var basis := Basis(account, ObservedView(dispatch), proposal,
                         UpdateRiskState(dated, account, env.day));
      ObservedIsObserved(dispatch);
      assert JudgedNext(env, dated, basis);
      QuietAct(plan.act, plan.rest);
      OrderSendsIff(config, env, basis);
    }
  }

  lemma ObservesSomething(dispatch: DispatchEnv, view: MarketView)
    requires Observes(dispatch, view)
    ensures dispatch.nowMs.Some? && dispatch.view.Some?
  {
  }

  lemma OrderSendsIff(config: LiveConfig, env: CycleEnv, basis: Basis)
    requires basis.view.Usable()
    ensures Sendings(OrderPlan(config, env, basis)) != []
            <==> env.dispatch.permitted && Askable(config, basis) && Verdict(config, basis).Ok?
  {
    hide DispatchPlan, Declined, Verdict, MarketableLimit, BookSnapshot.HasTop, MarketView.Usable;
    DeclinedCountsNothing(env, basis.risk);
    if Askable(config, basis) && Verdict(config, basis).Ok? {
      DispatchCountsNothing(config, env, Verdict(config, basis).value, basis);
    }
  }

  // ---------------------------------------------------------------- what an order respects

  /** What the account holds of the asset, short positions negative. */
  function Exposure(account: AccountSnapshot, symbol: Asset): int {
    if symbol !in account.positions then 0
    else
      var position := account.positions[symbol];
      if position.quantity < 0 then 0 - position.notional else position.notional
  }

  /** The risk limits of the arena, written out on the account and the risk state an order was judged
      on: losses, orders of the day, order size, position size and reserve. */
  predicate WithinRisk(config: LiveConfig, account: AccountSnapshot, risk: LiveRiskState,
                       order: OrderDecision)
  {
    var rules, notional, held := config.rules, order.actualNotional, Exposure(account, order.symbol);
    var capital := if account.equity < config.startingCapital then account.equity
                   else config.startingCapital;
    && PolicyTheorems.LossBelow(risk.dayStartEquity, account.equity, rules.dailyLossBps)
    && PolicyTheorems.LossBelow(risk.peakEquity, account.equity, rules.drawdownBps)
    && risk.ordersToday < rules.maxOrdersDay
    && notional * BPS <= capital * rules.maxOrderBps
    && (if order.reduceOnly then
          notional <= Abs(held) && (if order.side.Buy? then held < 0 else held > 0)
        else
          && Abs(held + (if order.side.Buy? then notional else 0 - notional)) * BPS
             <= capital * rules.maxPositionBps
          && notional <= (account.withdrawable - capital * rules.cashReserveBps / BPS)
                         * config.isolatedLeverage)
  }

  /** The book is fresh and tight enough: its age in whole seconds and its spread in whole basis points
      of the middle are within the rules. */
  predicate FreshAndTight(rules: RiskRules, view: MarketView)
    requires view.Quoted()
  {
    var bid, ask := view.book.Top(Sell), view.book.Top(Buy);
    && view.book.venueTimeMs <= view.observedAtMs
    && (rules.bookMaxAgeSeconds < U16_MAX ==>
          view.observedAtMs - view.book.venueTimeMs < (rules.bookMaxAgeSeconds + 1) * 1_000)
    && (ask - bid) * BPS < (rules.maxSpreadBps + 1) * ((bid + ask) / 2)
  }

  function DisplayedDepth(view: MarketView, side: Side): int {
    if view.book.HasTop(side) then view.SweptDepth(side) else 0
  }

  /** The quantity is the least number of lots worth the proposed share of the capital, and no less than
      ten USDC, at the best displayed price; the limit is the deepest price the book is swept to. */
  predicate SizedOnBook(config: LiveConfig, basis: Basis, order: OrderDecision) {
    var account, proposal, view := basis.account, basis.proposal, basis.view;
    var capital := if account.equity < config.startingCapital then account.equity
                   else config.startingCapital;
    && view.book.HasTop(order.side) && view.sizeDecimals <= 8
    && IsDeepest(view.book.Opposing(order.side), order.side, order.limitPrice)
    && PolicyTheorems.LeastLot(order.quantity, LotStep(view.sizeDecimals), view.book.Top(order.side),
                               Max(capital * proposal.notionalBps / 10_000, 10_000_000)
                               * QUANTITY_SCALE)
    && PolicyTheorems.FloorNotional(order.quantity, order.limitPrice, order.actualNotional)
  }

  /** Every limit of the arena, on what the order was judged on. */
  predicate WithinRules(config: LiveConfig, submission: Submission) {
    var basis, order := submission.basis, submission.order;
    && order.symbol == basis.proposal.symbol == basis.view.symbol && order.symbol in {BTC, ETH, SOL}
    && order.side == basis.proposal.side && order.reduceOnly == basis.proposal.reduceOnly
    && basis.view.Quoted() && FreshAndTight(config.rules, basis.view)
    && order.actualNotional <= DisplayedDepth(basis.view, order.side)
    && SizedOnBook(config, basis, order)
    && WithinRisk(config, basis.account, basis.risk, order)
  }

  /** Every justified order respects every limit of the arena. */
  lemma JustifiedWithinRules(config: LiveConfig, submission: Submission)
    requires Justified(config, submission)
    ensures WithinRules(config, submission)
  {
    JustifiedQuestion(config, submission);
    hide Justified, EvaluateProposal, Askable, DispatchContext, MarketableProposal, WithinRisk, SizedOnBook;
    var basis, order := submission.basis, submission.order;
    PolicyTheorems.ApprovalIff(MarketableProposal(basis), DispatchContext(config, basis), order);
    hide PolicyTheorems.Admissible, FreshAndTight, DisplayedDepth, MarketView.Quoted;
    AdmissibleRisk(config, basis, order);
    AdmissibleMarket(config, basis, order);
    AdmissibleSize(config, basis, order);
  }

  lemma AdmissibleSize(config: LiveConfig, basis: Basis, order: OrderDecision)
    requires Askable(config, basis)
    requires PolicyTheorems.Admissible(MarketableProposal(basis), DispatchContext(config, basis), order)
    ensures SizedOnBook(config, basis, order)
  {
    hide MarketableLimit, MarketView.Usable, BookSnapshot.Top, BookSnapshot.HasTop, MarketView.SweptDepth,
         IsDeepest, PolicyTheorems.WithinLimits, PolicyTheorems.LeastLot, PolicyTheorems.FloorNotional,
         LotStep;
    assert MarketOf(basis.view).sizeDecimals == basis.view.sizeDecimals;
    LimitIsDeepest(basis.view.book, order.side, order.limitPrice);
  }

  /** The limit an order is normalised to is the deepest price in reach. */
  lemma LimitIsDeepest(book: BookSnapshot, side: Side, limit: i64)
    ensures MarketableLimit(book, side) == Some(limit) <==> IsDeepest(book.Opposing(side), side, limit)
  {
    SweptIsDeepest(book, side, limit);
    hide IsDeepest, StopReadable, Swept, PriceOf;
    if book.HasTop(side) && StopReadable(book.Opposing(side), side, book.Top(side)) {
      TopIsSwept(book, side);
    }
  }

  lemma AdmissibleRisk(config: LiveConfig, basis: Basis, order: OrderDecision)
    requires Askable(config, basis)
    requires PolicyTheorems.Admissible(MarketableProposal(basis), DispatchContext(config, basis), order)
    ensures WithinRisk(config, basis.account, basis.risk, order)
  {
    hide MarketOf, MarketableLimit, MarketView.Usable, BookSnapshot.Top, BookSnapshot.HasTop,
         PolicyTheorems.SizedAs;
  }

  lemma AdmissibleMarket(config: LiveConfig, basis: Basis, order: OrderDecision)
    requires Askable(config, basis)
    requires PolicyTheorems.Admissible(MarketableProposal(basis), DispatchContext(config, basis), order)
    ensures order.symbol == basis.proposal.symbol == basis.view.symbol && order.symbol in {BTC, ETH, SOL}
    ensures order.side == basis.proposal.side && order.reduceOnly == basis.proposal.reduceOnly
    ensures basis.view.Quoted() && FreshAndTight(config.rules, basis.view)
    ensures order.actualNotional <= DisplayedDepth(basis.view, order.side)
  {
    var market := MarketOf(basis.view);
    assert market.bookAgeSeconds <= config.rules.bookMaxAgeSeconds
           && market.spreadBps <= config.rules.maxSpreadBps && market.symbol == basis.view.symbol
           && order.actualNotional <= AvailableDepth(order.side, market) by {
      hide MarketableLimit, MarketView.Usable, BookSnapshot.Top, BookSnapshot.HasTop,
           PolicyTheorems.SizedAs, MarketView.SweptDepth;
    }
    hide MarketableLimit, MarketView.Usable, MarketOf, BookSnapshot.Top, BookSnapshot.HasTop,
         PolicyTheorems.SizedAs, PolicyTheorems.WithinLimits, MarketView.SweptDepth, FreshAndTight;
    MarketDepth(basis.view, order.side);
    UsableIsFreshAndTight(config.rules, basis.view);
  }

  lemma UsableIsFreshAndTight(rules: RiskRules, view: MarketView)
    requires view.Usable()
    requires MarketOf(view).bookAgeSeconds <= rules.bookMaxAgeSeconds
    requires MarketOf(view).spreadBps <= rules.maxSpreadBps
    ensures view.Quoted() && FreshAndTight(rules, view)
  {
    hide BookSnapshot.HasTop, BookSnapshot.DepthReadable, MarketView.SweptDepth, PriceOf;
    var bid, ask := view.book.Top(Sell), view.book.Top(Buy);
    var middle := (bid + ask) / 2;
    TopsArePositive(view);
    SpreadIsNat(view);
    assert view.SpreadBps() == (ask - bid) * BPS / middle;
    AtMostFloor(rules.maxSpreadBps + 1, (ask - bid) * BPS, middle);
  }

  lemma TopsArePositive(view: MarketView)
    requires view.Quoted()
    ensures 0 < view.book.Top(Sell) <= view.book.Top(Buy)
    ensures (view.book.Top(Sell) + view.book.Top(Buy)) / 2 > 0
  {
  }

  // ---------------------------------------------------------------- the question put to the policy

  /** The portfolio says what the account and the risk state say. */
  predicate TellsPortfolio(basis: Basis, portfolio: PortfolioState) {
    && portfolio.equity == basis.account.equity
    && portfolio.availableCollateral == basis.account.withdrawable
    && portfolio.dayStartEquity == basis.risk.dayStartEquity
    && portfolio.peakEquity == basis.risk.peakEquity
    && portfolio.symbolPosition == Exposure(basis.account, basis.proposal.symbol)
    && portfolio.ordersToday == basis.risk.ordersToday
  }

  /** The policy question about a basis, told from the view, the account and the risk state. */
  predicate Questions(config: LiveConfig, basis: Basis, context: PolicyContext)
    requires basis.view.book.bids != [] && basis.view.book.asks != []
  {
    var book := basis.view.book;
    && context.rules == config.rules && context.isolatedLeverage == config.isolatedLeverage
    && context.startingCapital == config.startingCapital
    && context.referencePrice.Some?
    && context.referencePrice.value
       == PriceOf(if basis.proposal.side.Buy? then book.asks[0] else book.bids[0])
    && TellsMarket(basis.view, context.market) && TellsPortfolio(basis, context.portfolio)
  }

  lemma TopIsFirst(book: BookSnapshot, side: Side)
    requires book.HasTop(side)
    ensures var levels := if side.Buy? then book.asks else book.bids;
            levels != [] && book.Top(side) == PriceOf(levels[0])
  {
    hide PriceOf;
  }

  lemma DispatchPortfolio(config: LiveConfig, basis: Basis)
    requires Askable(config, basis)
    ensures TellsPortfolio(basis, DispatchContext(config, basis).portfolio)
  {
    hide MarketableLimit, MarketOf, MarketView.Usable, BookSnapshot.Top, BookSnapshot.HasTop;
  }

  lemma DispatchQuestions(config: LiveConfig, basis: Basis)
    requires Askable(config, basis)
    ensures basis.view.book.bids != [] && basis.view.book.asks != []
    ensures Questions(config, basis, DispatchContext(config, basis))
  {
    MarketSays(basis.view);
    TopIsFirst(basis.view.book, basis.proposal.side);
    DispatchPortfolio(config, basis);
    hide PriceOf, TellsMarket, TellsPortfolio, MarketableLimit, MarketOf, MarketView.Usable,
         BookSnapshot.Top, BookSnapshot.HasTop, Exposure;
  }

  lemma QuestionsUnique(config: LiveConfig, basis: Basis, a: PolicyContext, b: PolicyContext)
    requires basis.view.Usable()
    requires basis.view.book.bids != [] && basis.view.book.asks != []
    requires Questions(config, basis, a) && Questions(config, basis, b)
    ensures a == b
  {
    MarketUnique(basis.view, a.market, b.market);
    hide TellsMarket, PriceOf, MarketView.Usable, Exposure;
    assert a.portfolio == b.portfolio;
  }

  lemma MarketUnique(view: MarketView, a: MarketState, b: MarketState)
    requires view.Usable() && view.book.bids != [] && view.book.asks != []
    requires TellsMarket(view, a) && TellsMarket(view, b)
    ensures a == b
  {
    TopsArePositive(view);
    hide Depth, Swept, BookSnapshot.DepthReadable, PriceOf, IsAge, IsSpread;
    AgeUnique(view.observedAtMs - view.book.venueTimeMs, a.bookAgeSeconds, b.bookAgeSeconds);
    SpreadUnique(view.book.Top(Sell), view.book.Top(Buy), a.spreadBps, b.spreadBps);
  }

  lemma AgeUnique(millis: int, a: int, b: int)
    requires IsAge(millis, a) && IsAge(millis, b)
    ensures a == b
  {
  }

  lemma SpreadUnique(bid: int, ask: int, a: int, b: int)
    requires 0 < (bid + ask) / 2 && IsSpread(bid, ask, a) && IsSpread(bid, ask, b)
    ensures a == b
  {
    DivUnique((ask - bid) * 10_000, (bid + ask) / 2, a);
    DivUnique((ask - bid) * 10_000, (bid + ask) / 2, b);
  }

  /** The policy can be asked exactly when the view is usable, the side has a deepest price in reach and
      the capital fits. */
  lemma AskableIff(config: LiveConfig, basis: Basis)
    ensures Askable(config, basis)
            <==> && basis.view.Usable() && config.startingCapital <= I64_MAX
                 && exists limit: i64 ::
                      IsDeepest(basis.view.book.Opposing(basis.proposal.side), basis.proposal.side, limit)
  {
    hide IsDeepest, MarketableLimit, BookSnapshot.DepthReadable, PriceOf, MarketView.SpreadBps;
    var book, side := basis.view.book, basis.proposal.side;
    forall limit: i64
      ensures MarketableLimit(book, side) == Some(limit) <==> IsDeepest(book.Opposing(side), side, limit)
    {
      LimitIsDeepest(book, side, limit);
    }
    if MarketableLimit(book, side).Some? {
      assert IsDeepest(book.Opposing(side), side, MarketableLimit(book, side).value);
    }
  }

  /** The verdict is the order that the policy admits for the proposal at its deepest price in reach, on
      that question. */
  lemma VerdictIff(config: LiveConfig, basis: Basis, order: OrderDecision)
    requires Askable(config, basis)
    ensures basis.view.book.bids != [] && basis.view.book.asks != []
    ensures Verdict(config, basis) == Ok(order)
            <==> exists limit: i64, context ::
                   && IsDeepest(basis.view.book.Opposing(basis.proposal.side), basis.proposal.side, limit)
                   && Questions(config, basis, context)
                   && PolicyTheorems.Admissible(basis.proposal.(limitPrice := limit), context, order)
  {
    DispatchQuestions(config, basis);
    hide IsDeepest, Questions, PolicyTheorems.Admissible, EvaluateProposal, DispatchContext,
         MarketableLimit, BookSnapshot.DepthReadable, PriceOf, MarketView.Usable, BookSnapshot.HasTop;
    var book, side := basis.view.book, basis.proposal.side;
    var asked, executable := DispatchContext(config, basis), MarketableProposal(basis);
    PolicyTheorems.ApprovalIff(executable, asked, order);
    forall limit: i64
      ensures MarketableLimit(book, side) == Some(limit) <==> IsDeepest(book.Opposing(side), side, limit)
    {
      LimitIsDeepest(book, side, limit);
    }
    forall context | Questions(config, basis, context) ensures context == asked {
      QuestionsUnique(config, basis, context, asked);
    }
    assert IsDeepest(book.Opposing(side), side, executable.limitPrice);
  }
}
