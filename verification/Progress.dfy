/** Progress: with a signing identity that verifies and a sink that answers, appends succeed and plans
    are carried out to their end. */
module Progress {
  import opened Arithmetic
  import opened Events
  import opened Journal
  import opened Writer
  import opened WriterTheorems
  import opened Live
  import opened LiveTheorems
  import JournalTheorems

  /** Events with different identifiers have different digests; an injective digest does this. */
  ghost predicate TellsIds(crypto: Crypto) {
    forall a, b :: crypto.digest(a) == crypto.digest(b) ==> a.eventId == b.eventId
  }

  lemma InjectiveTellsIds(crypto: Crypto)
    requires Injective(crypto)
    ensures TellsIds(crypto)
  {
  }

  /** The next so many deliveries are acknowledged with a receipt that is not blank. */
  predicate Willing(script: seq<Answer>, answers: nat) {
    && answers <= |script|
    && forall i :: 0 <= i < answers ==> script[i].Acked? && !Blank(script[i].receipt)
  }

  lemma WillingLater(script: seq<Answer>, answers: nat, used: nat)
    requires Willing(script, answers) && used <= answers
    ensures Willing(script[used..], answers - used)
  {
  }

  lemma WillingLess(script: seq<Answer>, answers: nat, fewer: nat)
    requires Willing(script, answers) && fewer <= answers
    ensures Willing(script, fewer)
  {
  }

  /** The run's events can be signed, chained, stored and delivered. */
  ghost predicate Able(origin: Origin, wire: Wire, events: nat, answers: nat) {
    && Settled(origin.crypto, wire)
    && Authentic(origin.crypto, origin.identity) && TellsIds(origin.crypto)
    && |RunRows(wire.rows, origin.runId)| + events <= I64_MAX
    && Willing(wire.script, answers)
  }

  // ---------------------------------------------------------------- one delivery

  lemma SettleSucceeds(crypto: Crypto, wire: Wire, runId: nat)
    requires Settled(crypto, wire) && RunRows(wire.rows, runId) != []
    requires var own := RunRows(wire.rows, runId); own[|own| - 1].receipt.None?
    requires Willing(wire.script, 1)
    ensures var own := RunRows(wire.rows, runId);
            var (after, outcome) := Settle(wire, own[|own| - 1].envelope);
            outcome == Done && after.script == wire.script[1..]
  {
    hide Sound, RunSettled, ServerAgrees, IdsIssued, FirstWithId, PendingWithId, Accept, Blank;
    var j := LastRowIndex(wire.rows, runId);
    UniqueRow(wire.rows, j);
  }

  lemma FlushSucceeds(origin: Origin, wire: Wire) returns (used: nat)
    requires Settled(origin.crypto, wire) && Willing(wire.script, 1)
    ensures used <= 1
    ensures var (after, outcome) := Flush(origin, wire);
            outcome == Done && after.script == wire.script[used..]
  {
    hide Settle, Sound, ServerAgrees, IdsIssued, DistinctIds, Blank, RunRows, OfRun, Verified;
    var own := RunRows(wire.rows, origin.runId);
    assert RunSettled(own, OfRun(wire.server, origin.runId));
    PendingIsLast(own);
    hide RunSettled, Settled, Pending, Willing;
    if own != [] && own[|own| - 1].receipt.None? {
      used := 1;
      SettleSucceeds(origin.crypto, wire, origin.runId);
      PendingVerified(origin.crypto, wire, origin.runId);
      var event := own[|own| - 1].envelope;
      assert [event][1..] == [];
      assert SettleAll(wire, [event]) == Settle(wire, event);
    } else {
      used := 0;
    }
  }

  lemma PendingVerified(crypto: Crypto, wire: Wire, runId: nat)
    requires Settled(crypto, wire) && RunRows(wire.rows, runId) != []
    ensures var own := RunRows(wire.rows, runId); Verified(crypto, own[|own| - 1].envelope)
  {
    hide RunRows, PrimaryKey, Consistent, RunSettled, ServerAgrees, IdsIssued, DistinctIds, Verified;
    var own := RunRows(wire.rows, runId);
    assert Chain(crypto, RunChain(wire.rows, runId));
    assert RunChain(wire.rows, runId)[|own| - 1] == own[|own| - 1].envelope;
  }

  // ---------------------------------------------------------------- storing

  /** Every stored event verifies. */
  lemma StoredVerified(crypto: Crypto, rows: seq<Row>, i: nat)
    requires Sound(crypto, rows) && i < |rows|
    ensures Verified(crypto, rows[i].envelope)
  {
    hide PrimaryKey, Consistent, Verified, RunRows;
    JournalTheorems.InRunRows(rows, i);
    var own := RunRows(rows, rows[i].runId);
    var k :| 0 <= k < |own| && own[k] == rows[i];
    assert Chain(crypto, RunChain(rows, rows[i].runId));
    assert RunChain(rows, rows[i].runId)[k] == rows[i].envelope;
  }

  lemma NextHashIsNew(origin: Origin, wire: Wire, draft: Draft)
    requires Settled(origin.crypto, wire) && TellsIds(origin.crypto)
    ensures !HasHash(wire.rows, NextEvent(origin, wire, draft).sha)
  {
    hide PrimaryKey, AllChained, RunSettled, ServerAgrees, DistinctIds;
    var event := NextEvent(origin, wire, draft);
    forall i | 0 <= i < |wire.rows| ensures wire.rows[i].sha != event.sha {
      StoredVerified(origin.crypto, wire.rows, i);
      var stored := wire.rows[i].envelope;
      assert origin.crypto.digest(stored.fields) == wire.rows[i].sha;
      assert origin.crypto.digest(event.fields) == event.sha;
      assert stored.fields.eventId < wire.nextId == event.fields.eventId;
    }
  }

  /** The next event of a run with room left is one the journal takes. */
  lemma NextIsAppendable(origin: Origin, wire: Wire, draft: Draft)
    requires Settled(origin.crypto, wire) && TellsIds(origin.crypto)
    requires Authentic(origin.crypto, origin.identity)
    requires |RunRows(wire.rows, origin.runId)| < I64_MAX
    ensures Appendable(origin.crypto, wire.rows, NextEvent(origin, wire, draft))
  {
    hide Sound, RunSettled, ServerAgrees, DistinctIds, IdsIssued, RunRows, HasHash;
    NextHashIsNew(origin, wire, draft);
    JournalTheorems.LatestCountsRun(origin.crypto, wire.rows, origin.runId);
  }

  /** An append succeeds when the identity's signatures verify, the digest tells events apart, the run
      has room and the sink answers: the event is stored, on the server and acknowledged, and so is
      everything before it. */
  lemma AppendSucceeds(origin: Origin, wire: Wire, draft: Draft)
    returns (used: nat)
    requires Able(origin, wire, 1, 2)
    ensures used <= 2
    ensures var (after, outcome) := Append(origin, wire, draft);
            && outcome == Done && after.script == wire.script[used..]
            && AllAcked(RunRows(after.rows, origin.runId))
            && |RunRows(after.rows, origin.runId)| == |RunRows(wire.rows, origin.runId)| + 1
            && OfRun(after.server, origin.runId) == Envelopes(RunRows(after.rows, origin.runId))
  {
    hide Flush, Post, RunRows, AllAcked, Settled;
    AppendEffect(origin, wire, draft);
    WillingLess(wire.script, 2, 1);
    var first := FlushSucceeds(origin, wire);
    FlushSettles(origin, wire);
    var flushed := Flush(origin, wire).0;
    WillingLater(wire.script, 2, first);
    WillingLess(flushed.script, 2 - first, 1);
    PostSucceeds(origin, flushed, draft);
    used := first + 1;
    assert wire.script[first..][1..] == wire.script[used..];
    AckedIsSent(origin.crypto, Append(origin, wire, draft).0, origin.runId);
  }

  lemma PostSucceeds(origin: Origin, wire: Wire, draft: Draft)
    requires Able(origin, wire, 1, 1) && AllAcked(RunRows(wire.rows, origin.runId))
    ensures var (after, outcome) := Post(origin, wire, draft);
            outcome == Done && after.script == wire.script[1..]
  {
    hide Settle, Appendable, Insert, RunRows, AllAcked, Settled;
    var event := NextEvent(origin, wire, draft);
    hide NextEvent;
    NextIsAppendable(origin, wire, draft);
    StoreKeepsSettled(origin, wire, draft);
    var stored := wire.(rows := Insert(wire.rows, RowOf(event)), nextId := wire.nextId + 1);
    var own := RunRows(stored.rows, origin.runId);
    assert own[|own| - 1] == RowOf(event);
    SettleSucceeds(origin.crypto, stored, origin.runId);
  }

  /** A fully acknowledged run is on the server whole. */
  lemma AckedIsSent(crypto: Crypto, wire: Wire, runId: nat)
    requires Settled(crypto, wire) && AllAcked(RunRows(wire.rows, runId))
    ensures OfRun(wire.server, runId) == Envelopes(RunRows(wire.rows, runId))
  {
    hide Sound, ServerAgrees, DistinctIds, IdsIssued, RunRows, OfRun;
    var own := RunRows(wire.rows, runId);
    assert RunSettled(own, OfRun(wire.server, runId));
    assert Envelopes(own)[..|own|] == Envelopes(own);
  }

  // ---------------------------------------------------------------- whole plans

  /** Events a plan appends, a flush counted as one. */
  function EventsOf(plan: Plan): nat
    decreases plan
  {
    match plan
    case End(_, _) => 0
    case Then(act, rest) => (if act.EmitEvent? || act.FlushFirst? then 1 else 0) + EventsOf(rest)
  }

  /** A plan whose events can all be appended is carried out to its end. */
  lemma {:induction false} PlanSucceeds(origin: Origin, world: World, plan: Plan, answers: nat)
    requires Able(origin, world.wire, EventsOf(plan), answers) && 2 * EventsOf(plan) <= answers
    ensures var (after, finish) := Perform(origin, world, plan);
            && finish == Ended(EndingOf(plan), RiskOf(plan))
            && after.risk == StoredBy(plan, world.risk)
            && after.submissions == world.submissions + Sendings(plan)
            && |Own(origin, after)| <= |Own(origin, world)| + EventsOf(plan)
            && |Own(origin, world)| <= |Own(origin, after)|
            && Able(origin, after.wire, 0, answers - 2 * EventsOf(plan))
    decreases plan
  {
    hide Append, Flush, Settled, RunRows, Willing, Authentic, TellsIds;
    PerformSends(origin, world, plan);
    match plan {
      case End(_, _) =>
      case Then(act, rest) =>
        ActSucceeds(origin, world, act, answers);
        var next := DoAct(origin, world, act).0;
        var cost := if act.EmitEvent? || act.FlushFirst? then 1 else 0;
        hide DoAct;
        PlanSucceeds(origin, next, rest, answers - 2 * cost);
    }
  }

  lemma ActSucceeds(origin: Origin, world: World, act: Act, answers: nat)
    requires var cost := if act.EmitEvent? || act.FlushFirst? then 1 else 0;
             Able(origin, world.wire, cost, answers) && 2 * cost <= answers
    ensures var cost := if act.EmitEvent? || act.FlushFirst? then 1 else 0;
            var (next, outcome) := DoAct(origin, world, act);
            && outcome == Done
            && Able(origin, next.wire, 0, answers - 2 * cost)
            && |Own(origin, world)| <= |Own(origin, next)| <= |Own(origin, world)| + cost
            && next.risk == (if act.StoreRisk? then Some(act.state) else world.risk)
  {
    hide Append, Flush, Settled, RunRows, Willing, Authentic, TellsIds;
    match act {
      case EmitEvent(draft) =>
        WillingLess(world.wire.script, answers, 2);
        AppendEffect(origin, world.wire, draft);
        var used := AppendSucceeds(origin, world.wire, draft);
        WillingLater(world.wire.script, answers, used);
        WillingLess(world.wire.script[used..], answers - used, answers - 2);
      case FlushFirst =>
        WillingLess(world.wire.script, answers, 1);
        FlushSettles(origin, world.wire);
        var used := FlushSucceeds(origin, world.wire);
        WillingLater(world.wire.script, answers, used);
        WillingLess(world.wire.script[used..], answers - used, answers - 2);
      case StoreRisk(_) =>
      case SubmitIoc(_) =>
    }
  }
}
