/** The write-ahead, deliver, acknowledge protocol under any sink and any crash: each run's local
    log is settled up to its last event and the server is never more than that event behind. */
module WriterTheorems {
  import opened Arithmetic
  import opened Events
  import opened Journal
  import opened Writer
  import JournalTheorems

  // ---------------------------------------------------------------- the invariant

  /** Every event but possibly the last is acknowledged, and the server's log is a prefix of the
      local one, short of it by the last unacknowledged event at most. */
  predicate RunSettled(own: seq<Row>, sent: seq<Envelope>) {
    && (forall i :: 0 <= i < |own| - 1 ==> own[i].receipt.Some?)
    && |sent| <= |own| <= |sent| + 1
    && sent == Envelopes(own)[..|sent|]
    && (own != [] && own[|own| - 1].receipt.Some? ==> |sent| == |own|)
  }

  ghost predicate DistinctIds(rows: seq<Row>) {
    forall i, j :: 0 <= i < j < |rows| ==>
      rows[i].envelope.fields.eventId != rows[j].envelope.fields.eventId
  }

  ghost predicate IdsIssued(wire: Wire) {
    && (forall i :: 0 <= i < |wire.rows| ==> wire.rows[i].envelope.fields.eventId < wire.nextId)
    && (forall i :: 0 <= i < |wire.server| ==> wire.server[i].fields.eventId < wire.nextId)
  }

  /** The server holds nothing under a local id but the local event itself. */
  ghost predicate ServerAgrees(rows: seq<Row>, server: seq<Envelope>) {
    forall i, j :: 0 <= i < |server| && 0 <= j < |rows|
                   && server[i].fields.eventId == rows[j].envelope.fields.eventId
      ==> server[i] == rows[j].envelope
  }

  ghost predicate Settled(crypto: Crypto, wire: Wire) {
    && Sound(crypto, wire.rows) && DistinctIds(wire.rows) && IdsIssued(wire)
    && ServerAgrees(wire.rows, wire.server)
    && forall runId: nat :: RunSettled(RunRows(wire.rows, runId), OfRun(wire.server, runId))
  }

  predicate AllAcked(own: seq<Row>) {
    forall i :: 0 <= i < |own| ==> own[i].receipt.Some?
  }

  /** `after` continues `before`: same events, no receipt lost. */
  predicate Continues(before: seq<Row>, after: seq<Row>) {
    && |before| <= |after|
    && forall i :: 0 <= i < |before| ==>
         && after[i].envelope == before[i].envelope
         && (before[i].receipt.Some? ==> after[i].receipt == before[i].receipt)
  }

  // ---------------------------------------------------------------- rows of one run

  lemma {:induction false} OwnIdsDistinct(rows: seq<Row>, runId: nat)
    requires DistinctIds(rows)
    ensures DistinctIds(RunRows(rows, runId))
  {
    if rows != [] {
      var n := |rows| - 1;
      OwnIdsDistinct(rows[..n], runId);
      var before := RunRows(rows[..n], runId);
      forall i | 0 <= i < |before|
        ensures before[i].envelope.fields.eventId != rows[n].envelope.fields.eventId
      {
        JournalTheorems.RunRowsMember(rows[..n], runId, i);
        var j :| 0 <= j < n && rows[..n][j] == before[i];
        assert rows[j].envelope.fields.eventId != rows[n].envelope.fields.eventId;
      }
    }
  }

  /** A row found by its id in a table with distinct ids is the only one. */
  lemma UniqueRow(rows: seq<Row>, j: nat)
    requires DistinctIds(rows) && j < |rows| && rows[j].receipt.None?
    ensures FirstWithId(rows, rows[j].envelope.fields.eventId) == Some(rows[j])
    ensures PendingWithId(rows, rows[j].envelope.fields.eventId) == 1
  {
    var id := rows[j].envelope.fields.eventId;
    FirstIs(rows, j);
    PendingIs(rows, id, j);
  }

  lemma {:induction false} FirstIs(rows: seq<Row>, j: nat)
    requires DistinctIds(rows) && j < |rows|
    ensures FirstWithId(rows, rows[j].envelope.fields.eventId) == Some(rows[j])
  {
    if j > 0 {
      FirstIs(rows[1..], j - 1);
    }
  }

  lemma {:induction false} PendingIs(rows: seq<Row>, id: nat, j: nat)
    requires DistinctIds(rows) && j < |rows|
    requires rows[j].envelope.fields.eventId == id && rows[j].receipt.None?
    ensures PendingWithId(rows, id) == 1
  {
    var n := |rows| - 1;
    if j < n {
      PendingIs(rows[..n], id, j);
    } else {
      NonePending(rows[..n], id);
    }
  }

  lemma {:induction false} NonePending(rows: seq<Row>, id: nat)
    requires forall i :: 0 <= i < |rows| ==> rows[i].envelope.fields.eventId != id
    ensures PendingWithId(rows, id) == 0
  {
    if rows != [] {
      NonePending(rows[..|rows| - 1], id);
    }
  }

  /** Some character of the text is not white space. */
  predicate SaysSomething(text: string) {
    exists i :: 0 <= i < |text| && text[i] !in [' ', '\t', '\n', '\r']
  }

  /** The event is stored, pending or already with this receipt. */
  predicate Takes(rows: seq<Row>, id: nat, receipt: string) {
    exists i :: && 0 <= i < |rows| && rows[i].envelope.fields.eventId == id
                && (rows[i].receipt.None? || rows[i].receipt == Some(receipt))
  }

  /** Acknowledging succeeds exactly for a receipt that says something and a stored event that is pending
      or has this receipt; then that event has it, and nothing else changes. */
  lemma AcknowledgeSays(rows: seq<Row>, id: nat, receipt: string)
    requires DistinctIds(rows)
    ensures var (after, taken) := Acknowledge(rows, id, receipt);
            && (taken <==> SaysSomething(receipt) && Takes(rows, id, receipt))
            && |after| == |rows|
            && forall i :: 0 <= i < |rows| ==>
                 after[i] == (if taken && rows[i].envelope.fields.eventId == id
                              then rows[i].(receipt := Some(receipt)) else rows[i])
  {
    hide FirstWithId, PendingWithId;
    if j :| 0 <= j < |rows| && rows[j].envelope.fields.eventId == id {
      FirstIs(rows, j);
      if rows[j].receipt.None? {
        PendingIs(rows, id, j);
      }
    } else {
      NoneWithId(rows, id);
    }
  }

  lemma {:induction false} NoneWithId(rows: seq<Row>, id: nat)
    requires forall i :: 0 <= i < |rows| ==> rows[i].envelope.fields.eventId != id
    ensures FirstWithId(rows, id).None?
  {
    if rows != [] {
      NoneWithId(rows[1..], id);
    }
  }

  /** The event of a run's last row, and where that row is in the table. */
  lemma LastRowIndex(rows: seq<Row>, runId: nat) returns (j: nat)
    requires RunRows(rows, runId) != []
    ensures j < |rows| && rows[j] == RunRows(rows, runId)[|RunRows(rows, runId)| - 1]
    ensures rows[j].runId == runId
  {
    var own := RunRows(rows, runId);
    JournalTheorems.RunRowsMember(rows, runId, |own| - 1);
    j :| 0 <= j < |rows| && rows[j] == own[|own| - 1];
  }

  // ---------------------------------------------------------------- the sink accepts

  /** Whether the last event of a run is already on the server decides how far behind it is. */
  lemma KnownIffSent(crypto: Crypto, wire: Wire, runId: nat)
    requires Settled(crypto, wire) && RunRows(wire.rows, runId) != []
    ensures var own := RunRows(wire.rows, runId);
            Knows(wire.server, own[|own| - 1].envelope.fields.eventId)
            <==> |OfRun(wire.server, runId)| == |own|
  {
    hide PrimaryKey, AllChained, IdsIssued, RunRows, OfRun;
    var own, sent := RunRows(wire.rows, runId), OfRun(wire.server, runId);
    var n := |own| - 1;
    var id := own[n].envelope.fields.eventId;
    assert RunSettled(own, sent);
    if |sent| == |own| {
      JournalTheorems.OfRunFrom(wire.server, runId, n);
      var i :| 0 <= i < |wire.server| && wire.server[i] == sent[n];
      assert sent[n] == Envelopes(own)[n];
      assert wire.server[i].fields.eventId == id;
    }
    if Knows(wire.server, id) {
      var i :| 0 <= i < |wire.server| && wire.server[i].fields.eventId == id;
      var j := LastRowIndex(wire.rows, runId);
      assert wire.server[i] == own[n].envelope;
      assert wire.rows[j].runId == wire.rows[j].envelope.fields.runId;
      JournalTheorems.OfRunMember(wire.server, runId, i);
      var k :| 0 <= k < |sent| && sent[k] == own[n].envelope;
      OwnIdsDistinct(wire.rows, runId);
      assert sent[k] == Envelopes(own)[k];
      assert k == n;
    }
  }

  /** Accepting a run's last event completes the server's copy of that run and touches no other. */
  lemma {:induction false} AcceptCompletes(crypto: Crypto, wire: Wire, runId: nat)
    requires Settled(crypto, wire) && RunRows(wire.rows, runId) != []
    ensures var own := RunRows(wire.rows, runId);
            var server := Accept(wire.server, own[|own| - 1].envelope);
            && Settled(crypto, wire.(server := server))
            && OfRun(server, runId) == Envelopes(own)
  {
    var own, sent := RunRows(wire.rows, runId), OfRun(wire.server, runId);
    var event := own[|own| - 1].envelope;
    var server := Accept(wire.server, event);
    KnownIffSent(crypto, wire, runId);
    var j := LastRowIndex(wire.rows, runId);
    assert wire.rows[j].runId == event.fields.runId;
    assert RunSettled(own, sent);
    if !Knows(wire.server, event.fields.eventId) {
      AcceptNew(crypto, wire, runId, j);
    } else {
      assert sent == Envelopes(own)[..|own|];
    }
  }

  lemma AcceptNew(crypto: Crypto, wire: Wire, runId: nat, j: nat)
    requires Settled(crypto, wire) && RunRows(wire.rows, runId) != []
    requires var own := RunRows(wire.rows, runId);
             && |OfRun(wire.server, runId)| == |own| - 1
             && j < |wire.rows| && wire.rows[j] == own[|own| - 1]
             && wire.rows[j].envelope.fields.runId == runId
    ensures var own := RunRows(wire.rows, runId);
            var server := wire.server + [own[|own| - 1].envelope];
            && Settled(crypto, wire.(server := server))
            && OfRun(server, runId) == Envelopes(own)
  {
    hide Sound;
    var own, sent := RunRows(wire.rows, runId), OfRun(wire.server, runId);
    var n := |own| - 1;
    var event := own[n].envelope;
    var server := wire.server + [event];
    assert RunSettled(own, sent);
    forall other: nat ensures RunSettled(RunRows(wire.rows, other), OfRun(server, other)) {
      JournalTheorems.OfRunAppend(wire.server, event, other);
      assert RunSettled(RunRows(wire.rows, other), OfRun(wire.server, other));
      if other == runId {
        assert Envelopes(own) == Envelopes(own)[..n] + [event];
        assert OfRun(server, other) == Envelopes(own)[..|own|];
      } else {
        assert OfRun(server, other) == OfRun(wire.server, other);
      }
    }
    assert ServerAgrees(wire.rows, server) by {
      forall i, k | 0 <= i < |server| && 0 <= k < |wire.rows|
                    && server[i].fields.eventId == wire.rows[k].envelope.fields.eventId
        ensures server[i] == wire.rows[k].envelope
      {
        if i == |wire.server| {
          assert k == j;
        }
      }
    }
    assert IdsIssued(wire.(server := server));
    JournalTheorems.OfRunAppend(wire.server, event, runId);
    assert Envelopes(own) == Envelopes(own)[..n] + [event];
  }

  // ---------------------------------------------------------------- the journal acknowledges

  lemma OnlyLastChanges(rows: seq<Row>, runId: nat, other: nat, text: string)
    requires DistinctIds(rows) && RunRows(rows, runId) != []
    ensures var own := RunRows(rows, runId);
            var id := own[|own| - 1].envelope.fields.eventId;
            RunRows(SetReceipt(rows, id, text), other)
            == if other == runId then own[..|own| - 1] + [Receipted(own[|own| - 1], id, text)]
               else RunRows(rows, other)
  {
    var own := RunRows(rows, runId);
    var id := own[|own| - 1].envelope.fields.eventId;
    var j := LastRowIndex(rows, runId);
    JournalTheorems.ReceiptsKeepRunRows(rows, id, text, other);
    var theirs := RunRows(rows, other);
    OwnIdsDistinct(rows, runId);
    forall i | 0 <= i < |theirs|
      ensures Receipted(theirs[i], id, text)
              == if other == runId && i == |own| - 1 then Receipted(own[|own| - 1], id, text)
                 else theirs[i]
    {
      if other != runId {
        JournalTheorems.RunRowsMember(rows, other, i);
        var k :| 0 <= k < |rows| && rows[k] == theirs[i];
        assert k != j;
      }
    }
  }

  lemma ReceiptKeepsIds(wire: Wire, id: nat, text: string)
    requires DistinctIds(wire.rows) && IdsIssued(wire) && ServerAgrees(wire.rows, wire.server)
    ensures var rows := SetReceipt(wire.rows, id, text);
            DistinctIds(rows) && IdsIssued(wire.(rows := rows)) && ServerAgrees(rows, wire.server)
  {
  }

  /** A run whose last row gets a receipt stays settled when the server already holds all of it. */
  lemma ReceiptKeepsRun(own: seq<Row>, sent: seq<Envelope>, id: nat, text: string)
    requires RunSettled(own, sent) && own != [] && sent == Envelopes(own)
    requires own[|own| - 1].envelope.fields.eventId == id && own[|own| - 1].receipt.None?
    ensures var later := own[..|own| - 1] + [Receipted(own[|own| - 1], id, text)];
            RunSettled(later, sent) && Continues(own, later) && AllAcked(later)
  {
    var later := own[..|own| - 1] + [Receipted(own[|own| - 1], id, text)];
    assert Envelopes(later) == Envelopes(own);
  }

  lemma SameRows(wire: Wire)
    ensures forall runId: nat :: Continues(RunRows(wire.rows, runId), RunRows(wire.rows, runId))
  {
  }

  /** A receipt for a run's last pending event is recorded there and nowhere else, unless it is
      blank. */
  lemma AcknowledgeLast(crypto: Crypto, wire: Wire, runId: nat, text: string)
    requires Settled(crypto, wire) && RunRows(wire.rows, runId) != []
    requires var own := RunRows(wire.rows, runId);
             && own[|own| - 1].receipt.None? && OfRun(wire.server, runId) == Envelopes(own)
    ensures var own := RunRows(wire.rows, runId);
            var (rows, acknowledged) :=
              Acknowledge(wire.rows, own[|own| - 1].envelope.fields.eventId, text);
            && Settled(crypto, wire.(rows := rows))
            && (acknowledged ==> AllAcked(RunRows(rows, runId)))
            && forall other: nat :: Continues(RunRows(wire.rows, other), RunRows(rows, other))
                 && |RunRows(rows, other)| == |RunRows(wire.rows, other)|
  {
    hide Sound, FirstWithId, PendingWithId, RunSettled, Continues, AllAcked, DistinctIds, IdsIssued,
         ServerAgrees, RunRows, OfRun;
    var own := RunRows(wire.rows, runId);
    var id := own[|own| - 1].envelope.fields.eventId;
    var j := LastRowIndex(wire.rows, runId);
    UniqueRow(wire.rows, j);
    var rows := SetReceipt(wire.rows, id, text);
    JournalTheorems.ReceiptKeepsSound(crypto, wire.rows, id, text);
    ReceiptKeepsIds(wire, id, text);
    SameRows(wire);
    forall other: nat
      ensures RunSettled(RunRows(rows, other), OfRun(wire.server, other))
      ensures Continues(RunRows(wire.rows, other), RunRows(rows, other))
      ensures Continues(RunRows(wire.rows, other), RunRows(wire.rows, other))
      ensures |RunRows(rows, other)| == |RunRows(wire.rows, other)|
      ensures other == runId ==> AllAcked(RunRows(rows, other))
    {
      OnlyLastChanges(wire.rows, runId, other, text);
      assert RunSettled(RunRows(wire.rows, other), OfRun(wire.server, other));
      if other == runId {
        ReceiptKeepsRun(own, OfRun(wire.server, other), id, text);
      }
    }
  }

  // ---------------------------------------------------------------- what the sink said

  predicate Stored(rows: seq<Row>, event: Envelope) {
    exists i :: 0 <= i < |rows| && rows[i].envelope == event
  }

  /** The sink answered a delivery of this event with this receipt, which says something. */
  predicate Gave(met: seq<Meeting>, event: Envelope, receipt: string) {
    SaysSomething(receipt) && exists k :: 0 <= k < |met| && met[k] == Meeting(event, Acked(receipt))
  }

  function Replies(met: seq<Meeting>): seq<Answer> {
    seq(|met|, k requires 0 <= k < |met| => met[k].answer)
  }

  /** The receipts that are not in the table before are what the sink said to these deliveries. */
  ghost predicate FromSink(before: seq<Row>, after: seq<Row>, met: seq<Meeting>) {
    forall row :: row in after && row.receipt.Some? && row !in before ==>
      Gave(met, row.envelope, row.receipt.value)
  }

  ghost predicate AllStored(rows: seq<Row>, met: seq<Meeting>) {
    forall k :: 0 <= k < |met| ==> Stored(rows, met[k].event)
  }

  /** What happened in between: the deliveries met the script's answers in order, each delivered a
      stored event, every new receipt is what the sink said to a delivery of that very event, and no
      stored event is lost. */
  ghost predicate Hears(before: Wire, after: Wire) {
    && before.met <= after.met
    && (forall event :: Stored(before.rows, event) ==> Stored(after.rows, event))
    && var met := after.met[|before.met|..];
       && before.script == Replies(met) + after.script
       && FromSink(before.rows, after.rows, met) && AllStored(after.rows, met)
  }

  lemma HearsNothing(before: Wire, after: Wire)
    requires after.met == before.met && after.script == before.script && after.rows == before.rows
    ensures Hears(before, after)
  {
    assert Replies([]) + after.script == after.script;
  }

  lemma GaveMore(before: seq<Meeting>, met: seq<Meeting>, after: seq<Meeting>, event: Envelope,
                 receipt: string)
    requires Gave(met, event, receipt)
    ensures Gave(before + met + after, event, receipt)
  {
    var k :| 0 <= k < |met| && met[k] == Meeting(event, Acked(receipt));
    assert (before + met + after)[|before| + k] == met[k];
  }

  lemma HearsOnward(a: Wire, b: Wire, c: Wire)
    requires Hears(a, b) && Hears(b, c)
    ensures Hears(a, c)
  {
    hide Stored, Gave;
    var first, second, whole := b.met[|a.met|..], c.met[|b.met|..], c.met[|a.met|..];
    assert whole == first + second;
    assert Replies(whole) == Replies(first) + Replies(second);
    assert a.script == Replies(whole) + c.script;
    forall row | row in c.rows && row.receipt.Some? && row !in a.rows
      ensures Gave(whole, row.envelope, row.receipt.value)
    {
      if row in b.rows {
        GaveMore([], first, second, row.envelope, row.receipt.value);
        assert [] + first + second == whole;
      } else {
        GaveMore(first, second, [], row.envelope, row.receipt.value);
        assert first + second + [] == whole;
      }
    }
    forall k | 0 <= k < |whole| ensures Stored(c.rows, whole[k].event) {
      if k < |first| {
        assert Stored(b.rows, first[k].event);
      } else {
        assert whole[k] == second[k - |first|];
      }
    }
  }

  /** A delivery of a stored event, and the recording of what the sink said. */
  lemma SettleHears(wire: Wire, event: Envelope)
    requires DistinctIds(wire.rows) && Stored(wire.rows, event)
    ensures Hears(wire, Settle(wire, event).0)
  {
    hide Accept, FirstWithId, PendingWithId, Blank;
    var after := Settle(wire, event).0;
    if wire.script == [] {
      HearsNothing(wire, after);
    } else {
      var met := after.met[|wire.met|..];
      assert met == [Meeting(event, wire.script[0])];
      assert Replies(met) + after.script == wire.script;
      if after.rows != wire.rows {
        assert wire.script[0].Acked?;
        ReceiptFromSink(wire.rows, event, wire.script[0].receipt);
      } else {
        assert Stored(after.rows, event);
      }
    }
  }

  lemma ReceiptFromSink(rows: seq<Row>, event: Envelope, text: string)
    requires DistinctIds(rows) && Stored(rows, event) && !Blank(text)
    ensures var after := SetReceipt(rows, event.fields.eventId, text);
            && FromSink(rows, after, [Meeting(event, Acked(text))])
            && forall other :: Stored(rows, other) ==> Stored(after, other)
  {
    var id := event.fields.eventId;
    var after := SetReceipt(rows, id, text);
    var j :| 0 <= j < |rows| && rows[j].envelope == event;
    forall row | row in after && row.receipt.Some? && row !in rows
      ensures Gave([Meeting(event, Acked(text))], row.envelope, row.receipt.value)
    {
      var i :| 0 <= i < |rows| && after[i] == row;
      assert after[i] == Receipted(rows[i], id, text);
      assert rows[i] in rows;
      assert i == j;
      assert [Meeting(event, Acked(text))][0] == Meeting(row.envelope, Acked(row.receipt.value));
    }
    forall other | Stored(rows, other) ensures Stored(after, other) {
      var i :| 0 <= i < |rows| && rows[i].envelope == other;
      assert after[i] == Receipted(rows[i], id, text);
    }
  }

  /** Storing an event records no receipt. */
  lemma InsertHears(before: Wire, after: Wire, row: Row)
    requires after.rows == Insert(before.rows, row) && row.receipt.None?
    requires after.met == before.met && after.script == before.script
    ensures Hears(before, after) && Stored(after.rows, row.envelope)
  {
    assert Replies([]) + after.script == after.script;
    forall other | other in after.rows ensures other == row || other in before.rows {
      var i :| 0 <= i < |after.rows| && after.rows[i] == other;
      JournalTheorems.InsertMembers(before.rows, row, i);
    }
    InsertHolds(before.rows, row);
  }

  lemma {:induction false} InsertHolds(rows: seq<Row>, row: Row)
    ensures row in Insert(rows, row) && forall other :: other in rows ==> other in Insert(rows, row)
    ensures Stored(Insert(rows, row), row.envelope)
    ensures forall event :: Stored(rows, event) ==> Stored(Insert(rows, row), event)
  {
    if rows != [] && !KeyBefore(rows[|rows| - 1], row) {
      InsertHolds(rows[..|rows| - 1], row);
    }
    var longer := Insert(rows, row);
    assert row in longer by {
      if rows == [] || KeyBefore(rows[|rows| - 1], row) {
        assert longer[|rows|] == row;
      }
    }
    forall other | other in rows ensures other in longer {
      if rows != [] && !KeyBefore(rows[|rows| - 1], row) {
        assert other in rows[..|rows| - 1] || other == rows[|rows| - 1];
      }
    }
    MemberIsStored(longer, row);
    forall event | Stored(rows, event) ensures Stored(longer, event) {
      var i :| 0 <= i < |rows| && rows[i].envelope == event;
      MemberIsStored(longer, rows[i]);
    }
  }

  lemma MemberIsStored(rows: seq<Row>, row: Row)
    requires row in rows
    ensures Stored(rows, row.envelope)
  {
  }

  lemma LastIsHeard(crypto: Crypto, wire: Wire, runId: nat)
    requires Settled(crypto, wire) && RunRows(wire.rows, runId) != []
    ensures var own := RunRows(wire.rows, runId);
            Hears(wire, Settle(wire, own[|own| - 1].envelope).0)
  {
    hide Settle, Sound, RunSettled, RunRows;
    var j := LastRowIndex(wire.rows, runId);
    MemberIsStored(wire.rows, wire.rows[j]);
    SettleHears(wire, wire.rows[j].envelope);
  }

  // ---------------------------------------------------------------- one delivery

  /** What every protocol step keeps, for every run. */
  ghost predicate Advances(crypto: Crypto, before: Wire, after: Wire) {
    && Settled(crypto, after) && Hears(before, after)
    && before.nextId <= after.nextId
    && forall runId: nat :: Continues(RunRows(before.rows, runId), RunRows(after.rows, runId))
  }

  lemma ScriptIsFree(crypto: Crypto, wire: Wire, script: seq<Answer>, met: seq<Meeting>)
    requires Settled(crypto, wire)
    ensures Settled(crypto, wire.(script := script, met := met))
  {
    hide Sound, RunSettled, ServerAgrees, DistinctIds;
  }

  lemma SettleKeeps(crypto: Crypto, wire: Wire, runId: nat)
    requires Settled(crypto, wire) && RunRows(wire.rows, runId) != []
    requires var own := RunRows(wire.rows, runId); own[|own| - 1].receipt.None?
    ensures var own := RunRows(wire.rows, runId);
            var (after, outcome) := Settle(wire, own[|own| - 1].envelope);
            && Settled(crypto, after)
            && (forall other: nat ::
                  Continues(RunRows(wire.rows, other), RunRows(after.rows, other)))
            && after.nextId == wire.nextId
            && (forall other: nat ::
                  |RunRows(after.rows, other)| == |RunRows(wire.rows, other)|)
            && (outcome == Done ==> AllAcked(RunRows(after.rows, runId)))
  {
    hide Settled, Acknowledge, Accept, AllAcked;
    var own := RunRows(wire.rows, runId);
    var event := own[|own| - 1].envelope;
    SameRows(wire);
    if wire.script != [] {
      AcceptCompletes(crypto, wire, runId);
      var rest, met := wire.script[1..], wire.met + [Meeting(event, wire.script[0])];
      var accepted := wire.(server := Accept(wire.server, event));
      ScriptIsFree(crypto, wire, rest, met);
      ScriptIsFree(crypto, accepted, rest, met);
      if wire.script[0].Acked? {
        AcknowledgeLast(crypto, accepted.(script := rest, met := met), runId, wire.script[0].receipt);
      }
    }
  }

  /** Settling the last pending event of a run: whatever the sink does, the invariant survives, and
      success leaves the whole run acknowledged. */
  lemma SettleLast(crypto: Crypto, wire: Wire, runId: nat)
    requires Settled(crypto, wire) && RunRows(wire.rows, runId) != []
    requires var own := RunRows(wire.rows, runId); own[|own| - 1].receipt.None?
    ensures var own := RunRows(wire.rows, runId);
            var (after, outcome) := Settle(wire, own[|own| - 1].envelope);
            && Advances(crypto, wire, after)
            && after.nextId == wire.nextId
            && (forall other: nat ::
                  |RunRows(after.rows, other)| == |RunRows(wire.rows, other)|)
            && (outcome == Done ==> AllAcked(RunRows(after.rows, runId)))
  {
    hide Settle, Settled, Hears, AllAcked;
    LastIsHeard(crypto, wire, runId);
    SettleKeeps(crypto, wire, runId);
  }

  // ---------------------------------------------------------------- flushing and appending

  lemma PendingIsLast(own: seq<Row>)
    requires forall i :: 0 <= i < |own| - 1 ==> own[i].receipt.Some?
    ensures Pending(own) == if own != [] && own[|own| - 1].receipt.None?
                            then [own[|own| - 1].envelope] else []
  {
    if own != [] {
      NothingPending(own[..|own| - 1]);
    }
  }

  lemma {:induction false} NothingPending(own: seq<Row>)
    requires AllAcked(own)
    ensures Pending(own) == []
  {
    if own != [] {
      NothingPending(own[..|own| - 1]);
    }
  }

  /** A flush delivers the last event of the run if it is pending, and nothing otherwise. */
  lemma FlushShape(origin: Origin, wire: Wire)
    requires Settled(origin.crypto, wire)
    ensures var own := RunRows(wire.rows, origin.runId);
            Flush(origin, wire)
            == if own == [] || own[|own| - 1].receipt.Some? then (wire, Done)
               else if Verified(origin.crypto, own[|own| - 1].envelope) then
                 Settle(wire, own[|own| - 1].envelope)
               else (wire, JournalFailed)
    ensures var own := RunRows(wire.rows, origin.runId);
            own == [] || own[|own| - 1].receipt.Some? ==> AllAcked(own)
  {
    hide Settle, Verified, Sound, DistinctIds, IdsIssued, ServerAgrees, RunRows, OfRun, Pending;
    var own := RunRows(wire.rows, origin.runId);
    assert RunSettled(own, OfRun(wire.server, origin.runId));
    PendingIsLast(own);
    hide Settled, RunSettled;
    if own != [] && own[|own| - 1].receipt.None? {
      var event := own[|own| - 1].envelope;
      assert [event][1..] == [];
      assert SettleAll(wire, [event]) == Settle(wire, event);
      assert AllVerified(origin.crypto, [event]) == Verified(origin.crypto, event);
    } else {
      assert SettleAll(wire, []) == (wire, Done);
    }
  }

  lemma FlushSettles(origin: Origin, wire: Wire)
    requires Settled(origin.crypto, wire)
    ensures var (after, outcome) := Flush(origin, wire);
            && Advances(origin.crypto, wire, after)
            && after.nextId == wire.nextId
            && (forall other: nat ::
                  |RunRows(after.rows, other)| == |RunRows(wire.rows, other)|)
            && (outcome == Done ==> AllAcked(RunRows(after.rows, origin.runId)))
  {
    hide Flush, Settle, AllAcked, Hears, Settled, Verified, RunRows;
    FlushShape(origin, wire);
    HearsNothing(wire, wire);
    SameRows(wire);
    var own := RunRows(wire.rows, origin.runId);
    if own != [] && own[|own| - 1].receipt.None? {
      SettleLast(origin.crypto, wire, origin.runId);
    }
  }

  /** Storing the next event of a fully acknowledged run keeps the invariant. */
  lemma StoreKeepsSettled(origin: Origin, wire: Wire, draft: Draft)
    requires Settled(origin.crypto, wire)
    requires AllAcked(RunRows(wire.rows, origin.runId))
    requires Appendable(origin.crypto, wire.rows, NextEvent(origin, wire, draft))
    ensures var row := RowOf(NextEvent(origin, wire, draft));
            var stored := wire.(rows := Insert(wire.rows, row), nextId := wire.nextId + 1);
            && Settled(origin.crypto, stored)
            && forall runId: nat :: RunRows(stored.rows, runId)
                 == RunRows(wire.rows, runId) + (if runId == origin.runId then [row] else [])
  {
    hide Insert, Appendable, RunRows, OfRun;
    var event := NextEvent(origin, wire, draft);
    var row := RowOf(event);
    var rows := Insert(wire.rows, row);
    assert event.fields.eventId == wire.nextId && event.fields.runId == origin.runId;
    hide NextEvent;
    JournalTheorems.AppendKeepsSound(origin.crypto, wire.rows, event);
    hide Sound;
    forall runId: nat ensures RunSettled(RunRows(rows, runId), OfRun(wire.server, runId)) {
      var own := RunRows(wire.rows, runId);
      assert RunSettled(own, OfRun(wire.server, runId));
      if runId == origin.runId {
        assert Envelopes(own + [row]) == Envelopes(own) + [event];
      } else {
        assert own + [] == own;
      }
    }
    InsertedIds(wire, row);
  }

  lemma InsertedIds(wire: Wire, row: Row)
    requires DistinctIds(wire.rows) && IdsIssued(wire) && ServerAgrees(wire.rows, wire.server)
    requires row.envelope.fields.eventId == wire.nextId
    ensures var rows := Insert(wire.rows, row);
            && DistinctIds(rows) && ServerAgrees(rows, wire.server)
            && IdsIssued(wire.(rows := rows, nextId := wire.nextId + 1))
  {
    var rows := Insert(wire.rows, row);
    forall i | 0 <= i < |rows|
      ensures rows[i] == row || exists j :: 0 <= j < |wire.rows| && wire.rows[j] == rows[i]
    {
      JournalTheorems.InsertMembers(wire.rows, row, i);
    }
    InsertedDistinct(wire.rows, row);
  }

  lemma {:induction false} InsertedDistinct(rows: seq<Row>, row: Row)
    requires DistinctIds(rows)
    requires forall i :: 0 <= i < |rows| ==>
               rows[i].envelope.fields.eventId != row.envelope.fields.eventId
    ensures DistinctIds(Insert(rows, row))
  {
    if rows != [] && !KeyBefore(rows[|rows| - 1], row) {
      var n := |rows| - 1;
      InsertedDistinct(rows[..n], row);
      var shorter := Insert(rows[..n], row);
      forall i | 0 <= i < |shorter|
        ensures shorter[i].envelope.fields.eventId != rows[n].envelope.fields.eventId
      {
        JournalTheorems.InsertMembers(rows[..n], row, i);
      }
    }
  }

  /** The event carries what was drafted, for this run and signed by this identity. */
  predicate Carries(origin: Origin, event: Envelope, draft: Draft) {
    && event.fields.kind == draft.kind && event.fields.payload == draft.payload
    && event.fields.cycleId == draft.cycleId && event.fields.occurredAt == draft.occurredAt
    && event.fields.runId == origin.runId && event.fields.arenaId == origin.arenaId
    && event.publicKey == origin.identity.publicKey
  }

  /** One append: the run grows by exactly the drafted event or not at all, nothing already
      acknowledged is lost, and success means the event is stored, on the server and
      acknowledged. */
  ghost predicate Appended(origin: Origin, before: Wire, after: Wire, draft: Draft,
                           outcome: Outcome)
  {
    var earlier, later := RunRows(before.rows, origin.runId), RunRows(after.rows, origin.runId);
    && Advances(origin.crypto, before, after)
    && |earlier| <= |later| <= |earlier| + 1
    && (|later| > |earlier| ==> Carries(origin, later[|earlier|].envelope, draft))
    && (outcome == Done ==> |later| == |earlier| + 1 && AllAcked(later))
    && (forall other: nat :: other != origin.runId ==>
          |RunRows(after.rows, other)| == |RunRows(before.rows, other)|)
  }

  lemma NextCarries(origin: Origin, wire: Wire, draft: Draft)
    ensures Carries(origin, NextEvent(origin, wire, draft), draft)
  {
    hide Latest;
    assert NextEvent(origin, wire, draft).fields == NextFields(origin, wire, draft);
  }

  lemma PostEffect(origin: Origin, wire: Wire, draft: Draft)
    requires Settled(origin.crypto, wire)
    requires AllAcked(RunRows(wire.rows, origin.runId))
    ensures var (after, outcome) := Post(origin, wire, draft);
            Appended(origin, wire, after, draft, outcome)
  {
    hide Settle, Appendable, Insert, RunRows, AllAcked, Settled, Hears, Carries, NextEvent, Continues;
    NextCarries(origin, wire, draft);
    SameRows(wire);
    var event := NextEvent(origin, wire, draft);
    if Appendable(origin.crypto, wire.rows, event) {
      StoreKeepsSettled(origin, wire, draft);
      var stored := wire.(rows := Insert(wire.rows, RowOf(event)), nextId := wire.nextId + 1);
      var own := RunRows(stored.rows, origin.runId);
      assert own[|own| - 1] == RowOf(event);
      SettleLast(origin.crypto, stored, origin.runId);
      var after := Settle(stored, event).0;
      InsertHears(wire, stored, RowOf(event));
      HearsOnward(wire, stored, after);
      forall runId: nat ensures Continues(RunRows(wire.rows, runId), RunRows(after.rows, runId)) {
        assert Continues(RunRows(stored.rows, runId), RunRows(after.rows, runId));
        ContinuesPrefix(RunRows(wire.rows, runId), RunRows(stored.rows, runId),
                        RunRows(after.rows, runId));
      }
      ContinuesAt(own, RunRows(after.rows, origin.runId), |own| - 1);
    } else {
      NextIdIsFree(origin.crypto, wire);
      HearsNothing(wire, wire.(nextId := wire.nextId + 1));
    }
  }

  lemma ContinuesPrefix(before: seq<Row>, middle: seq<Row>, after: seq<Row>)
    requires before <= middle && Continues(middle, after)
    ensures Continues(before, after)
  {
  }

  lemma ContinuesAt(before: seq<Row>, after: seq<Row>, i: nat)
    requires Continues(before, after) && i < |before|
    ensures i < |after| && after[i].envelope == before[i].envelope
  {
  }

  lemma NextIdIsFree(crypto: Crypto, wire: Wire)
    requires Settled(crypto, wire)
    ensures Settled(crypto, wire.(nextId := wire.nextId + 1))
  {
    hide Sound, RunSettled, ServerAgrees, DistinctIds;
  }

  lemma AppendEffect(origin: Origin, wire: Wire, draft: Draft)
    requires Settled(origin.crypto, wire)
    ensures var (after, outcome) := Append(origin, wire, draft);
            Appended(origin, wire, after, draft, outcome)
  {
    hide Flush, Post, RunRows, AllAcked, Settled, Hears;
    FlushSettles(origin, wire);
    var (flushed, outcome) := Flush(origin, wire);
    if outcome == Done {
      PostEffect(origin, flushed, draft);
      var after := Post(origin, flushed, draft).0;
      HearsOnward(wire, flushed, after);
      forall runId: nat ensures Continues(RunRows(wire.rows, runId), RunRows(after.rows, runId)) {
        assert Continues(RunRows(wire.rows, runId), RunRows(flushed.rows, runId));
        assert Continues(RunRows(flushed.rows, runId), RunRows(after.rows, runId));
      }
    }
  }

  // ---------------------------------------------------------------- every interleaving

  /** One call of a writer for some run; a call that crashes is followed by a restarted process's. */
  datatype Call = FlushCall(arenaId: nat, runId: nat) | AppendCall(arenaId: nat, runId: nat, draft: Draft)

  function Invoke(crypto: Crypto, identity: Identity, wire: Wire, call: Call): Wire {
    match call
    case FlushCall(arenaId, runId) => Flush(Origin(crypto, identity, arenaId, runId), wire).0
    case AppendCall(arenaId, runId, draft) =>
      Append(Origin(crypto, identity, arenaId, runId), wire, draft).0
  }

  function AfterCalls(crypto: Crypto, identity: Identity, script: seq<Answer>, calls: seq<Call>): Wire {
    if calls == [] then Wire([], [], script, 0, [])
    else
      Invoke(crypto, identity, AfterCalls(crypto, identity, script, calls[..|calls| - 1]),
             calls[|calls| - 1])
  }

  lemma EmptyIsSettled(crypto: Crypto, script: seq<Answer>)
    ensures Settled(crypto, Wire([], [], script, 0, []))
  {
    JournalTheorems.EmptyTable(crypto);
  }

  /** Under any interleaving of calls over any runs, with any sink behaviour and crashes anywhere,
      every event of a run but possibly the last is acknowledged and the server's log of the run is
      a gapless, in-order, duplicate-free prefix of the local chain, at most one event behind. */
  lemma {:induction false} EveryInterleavingIsSettled(crypto: Crypto, identity: Identity,
                                                      script: seq<Answer>, calls: seq<Call>)
    ensures Settled(crypto, AfterCalls(crypto, identity, script, calls))
  {
    hide Settled, Flush, Append;
    if calls == [] {
      EmptyIsSettled(crypto, script);
    } else {
      EveryInterleavingIsSettled(crypto, identity, script, calls[..|calls| - 1]);
      var wire := AfterCalls(crypto, identity, script, calls[..|calls| - 1]);
      match calls[|calls| - 1] {
        case FlushCall(arenaId, runId) =>
          FlushSettles(Origin(crypto, identity, arenaId, runId), wire);
        case AppendCall(arenaId, runId, draft) =>
          AppendEffect(Origin(crypto, identity, arenaId, runId), wire, draft);
      }
    }
  }

  /** Every receipt in the journal is what the sink said to a delivery of that very event, every
      delivered event was stored, and the deliveries met the sink's answers in order. */
  ghost predicate Witnessed(script: seq<Answer>, wire: Wire) {
    && script == Replies(wire.met) + wire.script
    && AllStored(wire.rows, wire.met)
    && forall row :: row in wire.rows && row.receipt.Some? ==>
         Gave(wire.met, row.envelope, row.receipt.value)
  }

  lemma {:induction false} EveryReceiptIsTheSinks(crypto: Crypto, identity: Identity,
                                                  script: seq<Answer>, calls: seq<Call>)
    ensures Witnessed(script, AfterCalls(crypto, identity, script, calls))
  {
    var start := Wire([], [], script, 0, []);
    HearsFromStart(crypto, identity, script, calls);
    var after := AfterCalls(crypto, identity, script, calls);
    assert after.met[|start.met|..] == after.met;
  }

  lemma {:induction false} HearsFromStart(crypto: Crypto, identity: Identity, script: seq<Answer>,
                                          calls: seq<Call>)
    ensures Hears(Wire([], [], script, 0, []), AfterCalls(crypto, identity, script, calls))
  {
    hide Settled, Flush, Append, Hears;
    var start := Wire([], [], script, 0, []);
    if calls == [] {
      HearsNothing(start, start);
    } else {
      var earlier := calls[..|calls| - 1];
      HearsFromStart(crypto, identity, script, earlier);
      EveryInterleavingIsSettled(crypto, identity, script, earlier);
      var wire := AfterCalls(crypto, identity, script, earlier);
      match calls[|calls| - 1] {
        case FlushCall(arenaId, runId) =>
          FlushSettles(Origin(crypto, identity, arenaId, runId), wire);
        case AppendCall(arenaId, runId, draft) =>
          AppendEffect(Origin(crypto, identity, arenaId, runId), wire, draft);
      }
      HearsOnward(start, wire, AfterCalls(crypto, identity, script, calls));
    }
  }
}
