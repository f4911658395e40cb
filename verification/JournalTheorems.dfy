/** The journal keeps every run one verified chain, and its audit accepts exactly such tables. */
module JournalTheorems {
  import opened Arithmetic
  import opened Events
  import opened Journal

  // ---------------------------------------------------------------- rows of one run

  lemma RunRowsAppend(rows: seq<Row>, row: Row, runId: nat)
    ensures RunRows(rows + [row], runId)
            == RunRows(rows, runId) + (if row.runId == runId then [row] else [])
  {
    assert (rows + [row])[..|rows|] == rows;
  }

  /** What is pending, in order, part by part. */
  lemma {:induction false} PendingOfParts(first: seq<Row>, second: seq<Row>)
    ensures Pending(first + second) == Pending(first) + Pending(second)
    ensures |first| == 1 ==>
              Pending(first) == if first[0].receipt.None? then [first[0].envelope] else []
  {
    if second == [] {
      assert first + second == first;
    } else {
      var n := |second| - 1;
      PendingOfParts(first, second[..n]);
      assert (first + second)[..|first + second| - 1] == first + second[..n];
    }
  }

  lemma {:induction false} RunRowsMember(rows: seq<Row>, runId: nat, i: nat)
    requires i < |RunRows(rows, runId)|
    ensures RunRows(rows, runId)[i].runId == runId
    ensures exists j :: 0 <= j < |rows| && rows[j] == RunRows(rows, runId)[i]
  {
    var n := |rows| - 1;
    if i < |RunRows(rows[..n], runId)| {
      RunRowsMember(rows[..n], runId, i);
      var j :| 0 <= j < n && rows[..n][j] == RunRows(rows[..n], runId)[i];
      assert rows[j] == RunRows(rows, runId)[i];
    } else {
      assert rows[n] == RunRows(rows, runId)[i];
    }
  }

  lemma PrimaryKeyPrefix(rows: seq<Row>)
    requires PrimaryKey(rows) && rows != []
    ensures PrimaryKey(rows[..|rows| - 1])
  {
  }

  /** In a chain the last sequence number is the length. */
  lemma ChainLength(crypto: Crypto, chain: seq<Envelope>)
    requires Chain(crypto, chain) && chain != []
    ensures chain[|chain| - 1].fields.sequence == |chain|
  {
    var n := |chain| - 1;
    assert Follows(chain[n], n, Tip(chain[..n]));
  }

  // ---------------------------------------------------------------- what the audit establishes

  lemma OfRunAppend(events: seq<Envelope>, event: Envelope, runId: nat)
    ensures OfRun(events + [event], runId)
            == OfRun(events, runId) + (if event.fields.runId == runId then [event] else [])
  {
    assert (events + [event])[..|events|] == events;
  }

  lemma {:induction false} OfRunMember(events: seq<Envelope>, runId: nat, i: nat)
    requires i < |events| && events[i].fields.runId == runId
    ensures exists k :: 0 <= k < |OfRun(events, runId)| && OfRun(events, runId)[k] == events[i]
  {
    var n := |events| - 1;
    if i < n {
      OfRunMember(events[..n], runId, i);
      var k :| 0 <= k < |OfRun(events[..n], runId)| && OfRun(events[..n], runId)[k] == events[i];
      assert OfRun(events, runId)[k] == events[i];
    } else {
      assert OfRun(events, runId)[|OfRun(events[..n], runId)|] == events[n];
    }
  }

  lemma {:induction false} OfRunFrom(events: seq<Envelope>, runId: nat, k: nat)
    requires k < |OfRun(events, runId)|
    ensures exists i :: 0 <= i < |events| && events[i] == OfRun(events, runId)[k]
  {
    var n := |events| - 1;
    if k < |OfRun(events[..n], runId)| {
      OfRunFrom(events[..n], runId, k);
      var i :| 0 <= i < n && events[..n][i] == OfRun(events[..n], runId)[k];
      assert events[i] == OfRun(events, runId)[k];
    } else {
      assert events[n] == OfRun(events, runId)[k];
    }
  }

  lemma {:induction false} OfRunNone(events: seq<Envelope>, runId: nat)
    requires forall i :: 0 <= i < |events| ==> events[i].fields.runId != runId
    ensures OfRun(events, runId) == []
  {
    if events != [] {
      OfRunNone(events[..|events| - 1], runId);
    }
  }

  lemma PassesAppend(crypto: Crypto, events: seq<Envelope>, event: Envelope)
    ensures Passes(crypto, events + [event])
            <==> Passes(crypto, events) && AuditStep(crypto, events + [event], |events|)
  {
    hide AuditStep;
    var longer := events + [event];
    forall i | 0 <= i < |events|
      ensures AuditStep(crypto, longer, i) == AuditStep(crypto, events, i)
    {
      AuditStepLocal(crypto, longer, events, i);
    }
  }

  lemma AuditStepLocal(crypto: Crypto, a: seq<Envelope>, b: seq<Envelope>, i: nat)
    requires i < |a| && i < |b| && a[i] == b[i] && (i > 0 ==> a[i - 1] == b[i - 1])
    ensures AuditStep(crypto, a, i) == AuditStep(crypto, b, i)
  {
  }

  lemma ChainedAppend(crypto: Crypto, events: seq<Envelope>, event: Envelope)
    ensures EveryRunChained(crypto, events + [event])
            <==> && EveryRunChained(crypto, events)
                 && Verified(crypto, event)
                 && Follows(event, |OfRun(events, event.fields.runId)|,
                            Tip(OfRun(events, event.fields.runId)))
  {
    hide Chain, Verified, Follows, OfRun;
    forall runId: nat
      ensures Chain(crypto, OfRun(events + [event], runId))
              <==> && Chain(crypto, OfRun(events, runId))
                   && (runId == event.fields.runId ==>
                         && Verified(crypto, event)
                         && Follows(event, |OfRun(events, runId)|, Tip(OfRun(events, runId))))
    {
      OfRunAppend(events, event, runId);
      if runId == event.fields.runId {
        ChainExtends(crypto, OfRun(events, runId), event);
      } else {
        assert OfRun(events, runId) + [] == OfRun(events, runId);
      }
    }
    if EveryRunChained(crypto, events + [event]) {
      assert Chain(crypto, OfRun(events + [event], event.fields.runId));
      forall runId: nat ensures Chain(crypto, OfRun(events, runId)) {
        assert Chain(crypto, OfRun(events + [event], runId));
      }
    }
  }

  /** The event goes on with the run of the event before it. */
  predicate GoesOn(events: seq<Envelope>, event: Envelope) {
    events != [] && events[|events| - 1].fields.runId == event.fields.runId
  }

  /** A further event keeps the runs contiguous when it goes on with the last run or starts one that
      has not been seen. */
  lemma ContiguousAppend(events: seq<Envelope>, event: Envelope)
    ensures Contiguous(events + [event])
            <==> && Contiguous(events)
                 && (GoesOn(events, event) || OfRun(events, event.fields.runId) == [])
  {
    hide OfRun;
    var longer, n := events + [event], |events|;
    if Contiguous(longer) {
      forall i, j, k | 0 <= i < j < k < n && events[i].fields.runId == events[k].fields.runId
        ensures events[j].fields.runId == events[i].fields.runId
      {
        assert longer[i] == events[i] && longer[j] == events[j] && longer[k] == events[k];
      }
      if !GoesOn(events, event) {
        forall i | 0 <= i < n ensures events[i].fields.runId != event.fields.runId {
          assert longer[i] == events[i] && longer[n - 1] == events[n - 1] && longer[n] == event;
        }
        OfRunNone(events, event.fields.runId);
      }
    }
    if Contiguous(events) && (GoesOn(events, event) || OfRun(events, event.fields.runId) == []) {
      forall i, j, k | 0 <= i < j < k <= n && longer[i].fields.runId == longer[k].fields.runId
        ensures longer[j].fields.runId == longer[i].fields.runId
      {
        if k == n {
          OfRunMember(events, event.fields.runId, i);
          assert j < n - 1 ==> events[j].fields.runId == events[i].fields.runId;
        }
      }
    }
  }

  /** Passing the step is linking to the run's chain, unless the run comes back. */
  lemma StepIsLink(crypto: Crypto, events: seq<Envelope>, event: Envelope)
    requires EveryRunChained(crypto, events)
    ensures var chain := OfRun(events, event.fields.runId);
            var linked := Verified(crypto, event) && Follows(event, |chain|, Tip(chain));
            && (GoesOn(events, event) || chain == [] ==>
                  (AuditStep(crypto, events + [event], |events|) <==> linked))
            && (!GoesOn(events, event) && chain != [] ==>
                  !(linked && AuditStep(crypto, events + [event], |events|)))
  {
    hide Verified, Chain;
    var all, n := events + [event], |events|;
    var chain := OfRun(events, event.fields.runId);
    assert Chain(crypto, chain);
    assert all[n] == event && (n > 0 ==> all[n - 1] == events[n - 1]);
    if chain != [] {
      ChainLength(crypto, chain);
    }
    if GoesOn(events, event) {
      OfRunMember(events, event.fields.runId, n - 1);
      assert chain[|chain| - 1] == events[n - 1];
    }
  }

  /** Exactly what the audit establishes, on the envelopes it reads and nothing else. A sequence that
      passes has every run in one verified chain from sequence one and the zero hash if and only if
      no run comes back after another one has begun; and a sequence in which none comes back passes
      if and only if every run is such a chain. */
  lemma {:induction false} AuditIsExact(crypto: Crypto, events: seq<Envelope>)
    ensures Passes(crypto, events) ==> (EveryRunChained(crypto, events) <==> Contiguous(events))
    ensures Contiguous(events) ==> (EveryRunChained(crypto, events) <==> Passes(crypto, events))
  {
    hide AuditStep, Chain, Verified, Follows, Passes, EveryRunChained, Contiguous, OfRun, GoesOn;
    if events == [] {
      NothingAudited(crypto);
    } else {
      var n := |events| - 1;
      var init, last := events[..n], events[n];
      assert events == init + [last];
      AuditIsExact(crypto, init);
      PassesAppend(crypto, init, last);
      ChainedAppend(crypto, init, last);
      ContiguousAppend(init, last);
      if EveryRunChained(crypto, init) {
        StepIsLink(crypto, init, last);
      }
    }
  }

  lemma NothingAudited(crypto: Crypto)
    ensures Passes(crypto, []) && EveryRunChained(crypto, []) && Contiguous([])
  {
  }

  // ---------------------------------------------------------------- tables the journal wrote

  lemma {:induction false} RunChainIsOfRun(rows: seq<Row>, runId: nat)
    requires Consistent(rows)
    ensures RunChain(rows, runId) == OfRun(Envelopes(rows), runId)
  {
    if rows != [] {
      var n := |rows| - 1;
      RunChainIsOfRun(rows[..n], runId);
      assert Envelopes(rows)[..n] == Envelopes(rows[..n]);
      assert rows[n].runId == rows[n].envelope.fields.runId;
    }
  }

  lemma KeyedIsContiguous(rows: seq<Row>)
    requires PrimaryKey(rows) && Consistent(rows)
    ensures Contiguous(Envelopes(rows))
  {
    var events := Envelopes(rows);
    forall i, j, k
      | 0 <= i < j < k < |events| && events[i].fields.runId == events[k].fields.runId
      ensures events[j].fields.runId == events[i].fields.runId
    {
      assert KeyBefore(rows[i], rows[j]) && KeyBefore(rows[j], rows[k]);
    }
  }

  /** On a keyed table whose columns repeat their envelopes no run comes back, so the audit accepts
      exactly the tables in which every run is one verified chain. */
  lemma AuditIff(crypto: Crypto, rows: seq<Row>)
    requires PrimaryKey(rows) && Consistent(rows)
    ensures Audited(crypto, rows) <==> AllChained(crypto, rows)
  {
    hide Chain, Passes, OfRun, RunChain, Contiguous;
    KeyedIsContiguous(rows);
    AuditIsExact(crypto, Envelopes(rows));
    forall runId: nat ensures RunChain(rows, runId) == OfRun(Envelopes(rows), runId) {
      RunChainIsOfRun(rows, runId);
    }
  }

  lemma EmptyTable(crypto: Crypto)
    ensures Audited(crypto, []) && AllChained(crypto, [])
  {
  }

  // ---------------------------------------------------------------- appending

  /** The new row comes after every row of its own run. */
  ghost predicate AfterOwn(rows: seq<Row>, row: Row) {
    forall i :: 0 <= i < |rows| && rows[i].runId == row.runId ==> rows[i].sequence < row.sequence
  }

  lemma {:induction false} InsertRunRows(rows: seq<Row>, row: Row, runId: nat)
    requires AfterOwn(rows, row)
    ensures RunRows(Insert(rows, row), runId)
            == RunRows(rows, runId) + (if row.runId == runId then [row] else [])
  {
    hide RunRows;
    if rows == [] || KeyBefore(rows[|rows| - 1], row) {
      RunRowsAppend(rows, row, runId);
    } else {
      var n := |rows| - 1;
      assert rows[n].runId != row.runId;
      hide KeyBefore;
      InsertRunRows(rows[..n], row, runId);
      RunRowsAppend(Insert(rows[..n], row), rows[n], runId);
      assert rows == rows[..n] + [rows[n]];
      RunRowsAppend(rows[..n], rows[n], runId);
    }
  }

  lemma {:induction false} InsertMembers(rows: seq<Row>, row: Row, i: nat)
    requires i < |Insert(rows, row)|
    ensures |Insert(rows, row)| == |rows| + 1
    ensures Insert(rows, row)[i] == row
            || exists j :: 0 <= j < |rows| && rows[j] == Insert(rows, row)[i]
  {
    if rows == [] || KeyBefore(rows[|rows| - 1], row) {
      assert i < |rows| ==> rows[i] == Insert(rows, row)[i];
    } else {
      var n := |rows| - 1;
      if i < |Insert(rows[..n], row)| {
        InsertMembers(rows[..n], row, i);
        if Insert(rows[..n], row)[i] != row {
          var j :| 0 <= j < n && rows[..n][j] == Insert(rows[..n], row)[i];
          assert rows[j] == Insert(rows, row)[i];
        }
      } else {
        InsertMembers(rows[..n], row, 0);
        assert rows[n] == Insert(rows, row)[i];
      }
    }
  }

  lemma {:induction false} InsertKeepsKey(rows: seq<Row>, row: Row)
    requires PrimaryKey(rows) && AfterOwn(rows, row)
    ensures PrimaryKey(Insert(rows, row))
  {
    if rows != [] && !KeyBefore(rows[|rows| - 1], row) {
      var n := |rows| - 1;
      var shorter := Insert(rows[..n], row);
      InsertKeepsKey(rows[..n], row);
      forall i | 0 <= i < |shorter| ensures KeyBefore(shorter[i], rows[n]) {
        InsertMembers(rows[..n], row, i);
      }
    } else if rows != [] {
      forall i | 0 <= i < |rows| ensures KeyBefore(rows[i], row) {
        assert i < |rows| - 1 ==> KeyBefore(rows[i], rows[|rows| - 1]);
      }
    }
  }

  lemma InsertKeepsConsistent(rows: seq<Row>, event: Envelope)
    requires Consistent(rows)
    ensures Consistent(Insert(rows, RowOf(event)))
  {
    forall i | 0 <= i < |Insert(rows, RowOf(event))|
      ensures var row := Insert(rows, RowOf(event))[i];
              && row.runId == row.envelope.fields.runId
              && row.sequence == row.envelope.fields.sequence && row.sha == row.envelope.sha
    {
      InsertMembers(rows, RowOf(event), i);
    }
  }

  /** Appendable events come after their own run. */
  lemma AppendableIsAfterOwn(crypto: Crypto, rows: seq<Row>, event: Envelope)
    requires Sound(crypto, rows) && Appendable(crypto, rows, event)
    ensures AfterOwn(rows, RowOf(event))
    ensures Follows(event, |RunChain(rows, event.fields.runId)|,
                    Tip(RunChain(rows, event.fields.runId)))
  {
    var runId := event.fields.runId;
    var own := RunRows(rows, runId);
    forall i | 0 <= i < |rows| && rows[i].runId == runId
      ensures rows[i].sequence < event.fields.sequence
    {
      InRunRows(rows, i);
      LatestIsMax(rows, runId, rows[i]);
    }
    assert Chain(crypto, RunChain(rows, runId));
    if own != [] {
      ChainLength(crypto, RunChain(rows, runId));
      RunRowsMember(rows, runId, |own| - 1);
    }
  }

  lemma {:induction false} InRunRows(rows: seq<Row>, i: nat)
    requires i < |rows|
    ensures rows[i] in RunRows(rows, rows[i].runId)
  {
    if i < |rows| - 1 {
      InRunRows(rows[..|rows| - 1], i);
    }
  }

  lemma {:induction false} LatestIsMax(rows: seq<Row>, runId: nat, row: Row)
    requires PrimaryKey(rows) && row in RunRows(rows, runId)
    ensures Latest(rows, runId).Some?
    ensures row.sequence <= Latest(rows, runId).value.sequence
  {
    var n := |rows| - 1;
    var before := RunRows(rows[..n], runId);
    if rows[n].runId == runId {
      if row in before {
        var i :| 0 <= i < |before| && before[i] == row;
        RunRowsMember(rows[..n], runId, i);
        var j :| 0 <= j < n && rows[..n][j] == row;
        assert KeyBefore(rows[j], rows[n]);
      }
    } else {
      PrimaryKeyPrefix(rows);
      LatestIsMax(rows[..n], runId, row);
    }
  }

  /** Appending keeps the table sound, extends exactly the event's own run, and leaves every other
      run as it was. */
  lemma AppendKeepsSound(crypto: Crypto, rows: seq<Row>, event: Envelope)
    requires Sound(crypto, rows) && Appendable(crypto, rows, event)
    ensures var longer := Insert(rows, RowOf(event));
            && Sound(crypto, longer)
            && forall runId: nat :: RunRows(longer, runId)
                 == RunRows(rows, runId)
                    + (if event.fields.runId == runId then [RowOf(event)] else [])
  {
    hide RunRows, Insert, Chain, Verified, Follows, PrimaryKey, Consistent, AfterOwn;
    var row := RowOf(event);
    var longer := Insert(rows, row);
    AppendableIsAfterOwn(crypto, rows, event);
    InsertKeepsKey(rows, row);
    InsertKeepsConsistent(rows, event);
    forall runId: nat
      ensures RunRows(longer, runId)
              == RunRows(rows, runId) + (if event.fields.runId == runId then [row] else [])
      ensures Chain(crypto, RunChain(longer, runId))
    {
      InsertRunRows(rows, row, runId);
      assert Chain(crypto, RunChain(rows, runId));
      if runId == event.fields.runId {
        assert RunChain(longer, runId) == RunChain(rows, runId) + [event];
        ChainExtends(crypto, RunChain(rows, runId), event);
      } else {
        assert RunChain(longer, runId) == RunChain(rows, runId);
      }
    }
  }

  /** After an append the event is the latest of its run, one sequence number further on, and the
      latest of every other run is what it was. */
  lemma LatestAfterAppend(crypto: Crypto, rows: seq<Row>, event: Envelope, runId: nat)
    requires Sound(crypto, rows) && Appendable(crypto, rows, event)
    ensures var before, after := Latest(rows, runId), Latest(Insert(rows, RowOf(event)), runId);
            if event.fields.runId != runId then after == before
            else && after == Some(RowOf(event))
                 && after.value.sequence == (if before.None? then 0 else before.value.sequence) + 1
  {
    hide Insert, RunRows, Sound, Verified;
    AppendKeepsSound(crypto, rows, event);
  }

  /** The number of a run's events of a kind grows by one exactly when such an event is appended. */
  lemma CountAfterAppend(crypto: Crypto, rows: seq<Row>, event: Envelope, runId: nat, kind: Kind)
    requires Sound(crypto, rows) && Appendable(crypto, rows, event)
    ensures CountKind(RunRows(Insert(rows, RowOf(event)), runId), kind)
            == CountKind(RunRows(rows, runId), kind)
               + (if event.fields.runId == runId && event.fields.kind == kind then 1 else 0)
  {
    hide Insert, RunRows, Sound, Appendable;
    AppendKeepsSound(crypto, rows, event);
    var own := RunRows(rows, runId);
    assert (own + [RowOf(event)])[..|own|] == own;
    assert own + [] == own;
  }

  /** A chained run's latest sequence number is the number of its events. */
  lemma LatestCountsRun(crypto: Crypto, rows: seq<Row>, runId: nat)
    requires Sound(crypto, rows)
    ensures match Latest(rows, runId)
            case None => RunRows(rows, runId) == []
            case Some(last) => last.sequence == |RunRows(rows, runId)|
  {
    hide Chain, RunRows;
    var own := RunRows(rows, runId);
    if own != [] {
      assert Chain(crypto, RunChain(rows, runId));
      ChainLength(crypto, RunChain(rows, runId));
      RunRowsMember(rows, runId, |own| - 1);
    }
  }

  // ---------------------------------------------------------------- receipts

  lemma {:induction false} ReceiptsKeepRunRows(rows: seq<Row>, id: nat, receipt: string, runId: nat)
    ensures RunRows(SetReceipt(rows, id, receipt), runId)
            == SetReceipt(RunRows(rows, runId), id, receipt)
  {
    if rows != [] {
      var n := |rows| - 1;
      ReceiptsKeepRunRows(rows[..n], id, receipt, runId);
      assert SetReceipt(rows, id, receipt)[..n] == SetReceipt(rows[..n], id, receipt);
    }
  }

  lemma ReceiptKeepsSound(crypto: Crypto, rows: seq<Row>, id: nat, receipt: string)
    requires Sound(crypto, rows)
    ensures Sound(crypto, SetReceipt(rows, id, receipt))
    ensures forall runId: nat :: RunChain(SetReceipt(rows, id, receipt), runId) == RunChain(rows, runId)
  {
    hide Chain, RunRows;
    forall runId: nat
      ensures RunChain(SetReceipt(rows, id, receipt), runId) == RunChain(rows, runId)
      ensures Chain(crypto, RunChain(SetReceipt(rows, id, receipt), runId))
    {
      ReceiptsKeepRunRows(rows, id, receipt, runId);
      assert RunChain(SetReceipt(rows, id, receipt), runId) == RunChain(rows, runId);
      assert Chain(crypto, RunChain(rows, runId));
    }
  }

  lemma {:induction false} InsertKeepsHashes(rows: seq<Row>, row: Row)
    requires UniqueHashes(rows) && !HasHash(rows, row.sha)
    ensures UniqueHashes(Insert(rows, row))
  {
    if rows != [] && !KeyBefore(rows[|rows| - 1], row) {
      var n := |rows| - 1;
      var shorter := Insert(rows[..n], row);
      InsertKeepsHashes(rows[..n], row);
      forall i | 0 <= i < |shorter| ensures shorter[i].sha != rows[n].sha {
        InsertMembers(rows[..n], row, i);
      }
    }
  }

  lemma AppendKeepsHashes(crypto: Crypto, rows: seq<Row>, event: Envelope)
    requires UniqueHashes(rows) && Appendable(crypto, rows, event)
    ensures UniqueHashes(Insert(rows, RowOf(event)))
  {
    hide Insert, Verified, RunRows;
    InsertKeepsHashes(rows, RowOf(event));
  }

  // ---------------------------------------------------------------- every history

  datatype Action = Add(event: Envelope) | Confirm(id: nat, receipt: string)

  /** The table after one journal call, successful or refused. */
  function Act(crypto: Crypto, rows: seq<Row>, action: Action): seq<Row> {
    match action
    case Add(event) => if Appendable(crypto, rows, event) then Insert(rows, RowOf(event)) else rows
    case Confirm(id, receipt) => Acknowledge(rows, id, receipt).0
  }

  function History(crypto: Crypto, actions: seq<Action>): seq<Row> {
    if actions == [] then []
    else Act(crypto, History(crypto, actions[..|actions| - 1]), actions[|actions| - 1])
  }

  /** Whatever calls are made, in whatever order, the journal's own table passes its audit, every run
      in it is one verified chain, and no hash occurs twice. */
  lemma {:induction false} EveryHistoryIsSound(crypto: Crypto, actions: seq<Action>)
    ensures Sound(crypto, History(crypto, actions)) && UniqueHashes(History(crypto, actions))
    ensures Audited(crypto, History(crypto, actions))
  {
    hide Appendable, Insert, Chain, AuditStep;
    if actions == [] {
    } else {
      var before := History(crypto, actions[..|actions| - 1]);
      EveryHistoryIsSound(crypto, actions[..|actions| - 1]);
      match actions[|actions| - 1] {
        case Add(event) =>
          if Appendable(crypto, before, event) {
            AppendKeepsSound(crypto, before, event);
            AppendKeepsHashes(crypto, before, event);
          }
        case Confirm(id, receipt) => ReceiptKeepsSound(crypto, before, id, receipt);
      }
    }
    AuditIff(crypto, History(crypto, actions));
  }

  /** The event's hash is the digest of its fields, under the protocol's version, and its signature is one
      that its key is accepted for. */
  predicate Signed(crypto: Crypto, event: Envelope) {
    && event.sha == crypto.digest(event.fields) && event.fields.protocol == PROTOCOL_V1
    && crypto.accepts(event.publicKey, event.signature, event.sha)
  }

  /** The event follows the one before it in its run, or starts one. */
  predicate LinksBack(events: seq<Envelope>, i: nat)
    requires i < |events|
  {
    var fields := events[i].fields;
    if i > 0 && events[i - 1].fields.runId == fields.runId then
      && fields.sequence - 1 == events[i - 1].fields.sequence
      && fields.previous == events[i - 1].sha
    else fields.sequence == 1 && fields.previous == ZERO_HASH
  }

  /** A sequence passes the audit exactly when every event is signed and links back. */
  lemma AuditSays(crypto: Crypto, events: seq<Envelope>)
    ensures Passes(crypto, events)
            <==> forall i :: 0 <= i < |events| ==> Signed(crypto, events[i]) && LinksBack(events, i)
  {
    forall i | 0 <= i < |events|
      ensures AuditStep(crypto, events, i) <==> Signed(crypto, events[i]) && LinksBack(events, i)
    {
    }
    hide AuditStep, Signed, LinksBack;
  }

  /** After any appends and acknowledgements every stored event is signed and links back to the row before
      it, or starts its run. */
  lemma EveryEventIsSigned(crypto: Crypto, actions: seq<Action>, i: nat)
    requires i < |History(crypto, actions)|
    ensures var rows := History(crypto, actions);
            Signed(crypto, rows[i].envelope) && LinksBack(Envelopes(rows), i)
  {
    hide Signed, LinksBack, Passes, History;
    EveryHistoryIsSound(crypto, actions);
    AuditSays(crypto, Envelopes(History(crypto, actions)));
  }

  // ---------------------------------------------------------------- what the audit does not see

  /** A passing table that is not chained. Keys and hashes are unique, as the table demands; but the
      run column disagrees with the envelopes, so one run comes back after another, and the audit, which
      reads envelopes only, lets it start again. */
  lemma AuditIgnoresColumns(crypto: Crypto, a: Envelope, b: Envelope, c: Envelope)
    requires Verified(crypto, a) && Verified(crypto, b) && Verified(crypto, c)
    requires a.fields.runId == c.fields.runId != b.fields.runId
    requires a.fields.sequence == b.fields.sequence == c.fields.sequence == 1
    requires a.fields.previous == b.fields.previous == c.fields.previous == ZERO_HASH
    requires a.sha != b.sha && a.sha != c.sha && b.sha != c.sha
    ensures var rows := [Row(0, 1, a.sha, a, None), Row(1, 1, b.sha, b, None),
                         Row(2, 1, c.sha, c, None)];
            && PrimaryKey(rows) && UniqueHashes(rows) && Audited(crypto, rows)
            && !Contiguous(Envelopes(rows)) && !EveryRunChained(crypto, Envelopes(rows))
  {
    hide EveryRunChained, Verified;
    var rows := [Row(0, 1, a.sha, a, None), Row(1, 1, b.sha, b, None), Row(2, 1, c.sha, c, None)];
    var events := Envelopes(rows);
    assert events[0] == a && events[1] == b && events[2] == c;
    assert AuditStep(crypto, events, 0) && AuditStep(crypto, events, 1) && AuditStep(crypto, events, 2);
    AuditIsExact(crypto, events);
  }
}
