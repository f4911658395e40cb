/** The local journal: a table of run events keyed by run and sequence, their receipts, and a
    durable map of secrets. */
module Journal {
  import opened Arithmetic
  import opened Events

  datatype LiveRiskState = LiveRiskState(
    tradingDay: int,
    dayStartEquity: i64,
    peakEquity: i64,
    ordersToday: u16,
    lastReconciliationMs: u64)

  datatype SecretName = RiskStateOf(runId: nat) | Named(name: string)

  datatype Secret = RiskState(state: LiveRiskState) | Text(text: string)

  datatype JournalError = DatabaseFailure | EventInvalid | SequenceInvalid

  datatype Row = Row(runId: nat, sequence: nat, sha: Hash, envelope: Envelope, receipt: Option<string>)

  // ---------------------------------------------------------------- the table

  predicate KeyBefore(a: Row, b: Row) {
    a.runId < b.runId || (a.runId == b.runId && a.sequence < b.sequence)
  }

  /** Rows in primary-key order, each key once. */
  ghost predicate PrimaryKey(rows: seq<Row>) {
    forall i, j :: 0 <= i < j < |rows| ==> KeyBefore(rows[i], rows[j])
  }

  /** The hash column holds each hash once. */
  predicate UniqueHashes(rows: seq<Row>) {
    forall i, j :: 0 <= i < j < |rows| ==> rows[i].sha != rows[j].sha
  }

  predicate HasHash(rows: seq<Row>, sha: Hash) {
    exists i :: 0 <= i < |rows| && rows[i].sha == sha
  }

  /** The rows of one run, in sequence order. */
  function RunRows(rows: seq<Row>, runId: nat): seq<Row> {
    if rows == [] then []
    else
      var last := rows[|rows| - 1];
      RunRows(rows[..|rows| - 1], runId) + (if last.runId == runId then [last] else [])
  }

  function Envelopes(rows: seq<Row>): (events: seq<Envelope>)
    ensures |events| == |rows|
    ensures forall i :: 0 <= i < |rows| ==> events[i] == rows[i].envelope
  {
    seq(|rows|, i requires 0 <= i < |rows| => rows[i].envelope)
  }

  function RunChain(rows: seq<Row>, runId: nat): seq<Envelope> {
    Envelopes(RunRows(rows, runId))
  }

  function Latest(rows: seq<Row>, runId: nat): Option<Row> {
    var own := RunRows(rows, runId);
    if own == [] then None else Some(own[|own| - 1])
  }

  function RowOf(event: Envelope): Row {
    Row(event.fields.runId, event.fields.sequence, event.sha, event, None)
  }

  /** Stores a row at the place its key belongs. */
  function Insert(rows: seq<Row>, row: Row): seq<Row> {
    if rows == [] || KeyBefore(rows[|rows| - 1], row) then rows + [row]
    else Insert(rows[..|rows| - 1], row) + [rows[|rows| - 1]]
  }

  /** The journal's checks before an insert: verification, chain position, range, unique hash. */
  predicate Appendable(crypto: Crypto, rows: seq<Row>, event: Envelope) {
    && Verified(crypto, event)
    && (match Latest(rows, event.fields.runId)
        case None => event.fields.sequence == 1 && event.fields.previous == ZERO_HASH
        case Some(last) =>
          event.fields.sequence == last.sequence + 1 && event.fields.previous == last.sha)
    && event.fields.sequence <= I64_MAX
    && !HasHash(rows, event.sha)
  }

  // ---------------------------------------------------------------- receipts

  predicate Blank(receipt: string) {
    forall i :: 0 <= i < |receipt| ==> receipt[i] in {' ', '\t', '\n', '\r'}
  }

  function Receipted(row: Row, id: nat, receipt: string): Row {
    if row.envelope.fields.eventId == id && row.receipt.None? then row.(receipt := Some(receipt))
    else row
  }

  /** The update statement: every pending row of the event gets the receipt. */
  function SetReceipt(rows: seq<Row>, id: nat, receipt: string): (updated: seq<Row>)
    ensures |updated| == |rows|
    ensures forall i :: 0 <= i < |rows| ==> updated[i] == Receipted(rows[i], id, receipt)
  {
    seq(|rows|, i requires 0 <= i < |rows| => Receipted(rows[i], id, receipt))
  }

  /** The first row of the event, in key order. */
  function FirstWithId(rows: seq<Row>, id: nat): Option<Row> {
    if rows == [] then None
    else if rows[0].envelope.fields.eventId == id then Some(rows[0])
    else FirstWithId(rows[1..], id)
  }

  function PendingWithId(rows: seq<Row>, id: nat): nat {
    if rows == [] then 0
    else
      var last := rows[|rows| - 1];
      PendingWithId(rows[..|rows| - 1], id)
      + (if last.envelope.fields.eventId == id && last.receipt.None? then 1 else 0)
  }

  /** The table after acknowledging an event, and whether the call succeeds. */
  function Acknowledge(rows: seq<Row>, id: nat, receipt: string): (seq<Row>, bool) {
    if Blank(receipt) then (rows, false)
    else
      match FirstWithId(rows, id)
      case None => (rows, false)
      case Some(row) =>
        if row.receipt.Some? then (rows, row.receipt.value == receipt)
        else (SetReceipt(rows, id, receipt), PendingWithId(rows, id) == 1)
  }

  function Pending(rows: seq<Row>): seq<Envelope> {
    if rows == [] then []
    else
      var last := rows[|rows| - 1];
      Pending(rows[..|rows| - 1]) + (if last.receipt.None? then [last.envelope] else [])
  }

  predicate AllVerified(crypto: Crypto, events: seq<Envelope>) {
    forall i :: 0 <= i < |events| ==> Verified(crypto, events[i])
  }

  function CountKind(rows: seq<Row>, kind: Kind): nat {
    if rows == [] then 0
    else
      CountKind(rows[..|rows| - 1], kind)
      + (if rows[|rows| - 1].envelope.fields.kind == kind then 1 else 0)
  }

  // ---------------------------------------------------------------- the audit

  /** One step of the audit over the envelopes in key order: it reads no key column. */
  predicate AuditStep(crypto: Crypto, events: seq<Envelope>, i: nat)
    requires i < |events|
  {
    var event := events[i];
    && Verified(crypto, event)
    && (if i > 0 && events[i - 1].fields.runId == event.fields.runId then
          && event.fields.sequence == events[i - 1].fields.sequence + 1
          && event.fields.previous == events[i - 1].sha
        else event.fields.sequence == 1 && event.fields.previous == ZERO_HASH)
  }

  predicate Passes(crypto: Crypto, events: seq<Envelope>) {
    forall i :: 0 <= i < |events| ==> AuditStep(crypto, events, i)
  }

  predicate Audited(crypto: Crypto, rows: seq<Row>) {
    Passes(crypto, Envelopes(rows))
  }

  /** The audit's promise, on the envelopes it reads: every run is one verified chain from sequence
      one and the zero hash. */
  ghost predicate EveryRunChained(crypto: Crypto, events: seq<Envelope>) {
    forall runId: nat :: Chain(crypto, OfRun(events, runId))
  }

  /** No run comes back after another one has begun. */
  predicate Contiguous(events: seq<Envelope>) {
    forall i, j, k ::
      0 <= i < j < k < |events| && events[i].fields.runId == events[k].fields.runId
      ==> events[j].fields.runId == events[i].fields.runId
  }

  /** The key and hash columns repeat what the envelope says. */
  predicate Consistent(rows: seq<Row>) {
    forall i :: 0 <= i < |rows| ==>
      && rows[i].runId == rows[i].envelope.fields.runId
      && rows[i].sequence == rows[i].envelope.fields.sequence
      && rows[i].sha == rows[i].envelope.sha
  }

  ghost predicate AllChained(crypto: Crypto, rows: seq<Row>) {
    forall runId: nat :: Chain(crypto, RunChain(rows, runId))
  }

  /** A table only this journal has written: keyed, consistent, every run one verified chain. */
  ghost predicate Sound(crypto: Crypto, rows: seq<Row>) {
    PrimaryKey(rows) && Consistent(rows) && AllChained(crypto, rows)
  }

  function WithReceipt(row: Row): Envelope {
    row.envelope.(receipt := row.receipt)
  }

  function Published(rows: seq<Row>): (events: seq<Envelope>)
    ensures |events| == |rows|
    ensures forall i :: 0 <= i < |rows| ==> events[i] == WithReceipt(rows[i])
  {
    seq(|rows|, i requires 0 <= i < |rows| => WithReceipt(rows[i]))
  }

  // ---------------------------------------------------------------- the journal object

  class EncryptedJournal {
    var rows: seq<Row>
    var secrets: map<SecretName, Secret>
    const crypto: Crypto

    constructor (crypto: Crypto)
      ensures this.crypto == crypto && rows == [] && secrets == map[]
    {
      this.crypto := crypto;
      rows := [];
      secrets := map[];
    }

    method Append(event: Envelope) returns (appended: Result<(), JournalError>)
      modifies this`rows
      ensures appended.Ok? <==> Appendable(crypto, old(rows), event)
      ensures rows == if appended.Ok? then Insert(old(rows), RowOf(event)) else old(rows)
    {
      if !Verified(crypto, event) {
        return Err(EventInvalid);
      }
      var previous := Latest(rows, event.fields.runId);
      match previous {
        case None =>
          if event.fields.sequence != 1 || event.fields.previous != ZERO_HASH {
            return Err(SequenceInvalid);
          }
        case Some(last) =>
          if event.fields.sequence != last.sequence + 1 || event.fields.previous != last.sha {
            return Err(SequenceInvalid);
          }
      }
      if event.fields.sequence > I64_MAX {
        return Err(SequenceInvalid);
      }
      if HasHash(rows, event.sha) {
        return Err(DatabaseFailure);
      }
      rows := Insert(rows, RowOf(event));
      return Ok(());
    }

    method LatestEventState(runId: nat) returns (latest: Option<(nat, Hash)>)
      ensures latest == match Latest(rows, runId)
                        case None => None
                        case Some(row) => Some((row.sequence, row.sha))
    {
      var row := Latest(rows, runId);
      if row.None? {
        return None;
      }
      return Some((row.value.sequence, row.value.sha));
    }

    method EventCount(runId: nat, kind: Kind) returns (count: nat)
      ensures count == CountKind(RunRows(rows, runId), kind)
    {
      count := CountKind(RunRows(rows, runId), kind);
    }

    /** Unacknowledged events of a run in sequence order, each verified again. */
    method PendingEvents(runId: nat) returns (events: Result<seq<Envelope>, JournalError>)
      ensures events.Ok? <==> AllVerified(crypto, Pending(RunRows(rows, runId)))
      ensures events.Ok? ==> events.value == Pending(RunRows(rows, runId))
    {
      var pending := Pending(RunRows(rows, runId));
      for i := 0 to |pending|
        invariant forall j :: 0 <= j < i ==> Verified(crypto, pending[j])
      {
        if !Verified(crypto, pending[i]) {
          return Err(EventInvalid);
        }
      }
      return Ok(pending);
    }

    /** The audit pass over the whole table, remembering the previous run, sequence and hash. */
    method PublicEvents() returns (events: Result<seq<Envelope>, JournalError>)
      ensures events.Ok? <==> Audited(crypto, rows)
      ensures events.Ok? ==> events.value == Published(rows)
    {
      var collected := [];
      var previousRun: Option<nat> := None;
      var previousSequence: int := 0;
      var previousHash := ZERO_HASH;
      var envelopes := Envelopes(rows);
      for i := 0 to |rows|
        invariant forall j :: 0 <= j < i ==> AuditStep(crypto, envelopes, j)
        invariant collected == Published(rows)[..i]
        invariant if i == 0 then previousRun == None
                  else && previousRun == Some(envelopes[i - 1].fields.runId)
                       && previousSequence == envelopes[i - 1].fields.sequence
                       && previousHash == envelopes[i - 1].sha
      {
        var event := rows[i].envelope;
        if !Verified(crypto, event) {
          assert !AuditStep(crypto, envelopes, i);
          return Err(EventInvalid);
        }
        if previousRun == Some(event.fields.runId) {
          if event.fields.sequence != previousSequence + 1 || event.fields.previous != previousHash {
            assert !AuditStep(crypto, envelopes, i);
            return Err(SequenceInvalid);
          }
        } else if event.fields.sequence != 1 || event.fields.previous != ZERO_HASH {
          assert !AuditStep(crypto, envelopes, i);
          return Err(SequenceInvalid);
        }
        previousRun := Some(event.fields.runId);
        previousSequence := event.fields.sequence;
        previousHash := event.sha;
        collected := collected + [WithReceipt(rows[i])];
      }
      return Ok(collected);
    }

    method AcknowledgeEvent(id: nat, receipt: string) returns (acknowledged: bool)
      modifies this`rows
      ensures (rows, acknowledged) == Acknowledge(old(rows), id, receipt)
    {
      if Blank(receipt) {
        return false;
      }
      var existing := FirstWithId(rows, id);
      if existing.None? {
        return false;
      }
      if existing.value.receipt.Some? {
        return existing.value.receipt.value == receipt;
      }
      var changed := PendingWithId(rows, id);
      rows := SetReceipt(rows, id, receipt);
      return changed == 1;
    }

    method PutSecret(name: SecretName, secret: Secret) returns (stored: bool)
      modifies this`secrets
      ensures stored <==> name != Named("")
      ensures secrets == if stored then old(secrets)[name := secret] else old(secrets)
    {
      if name == Named("") {
        return false;
      }
      secrets := secrets[name := secret];
      return true;
    }

    method ReadSecret(name: SecretName) returns (secret: Option<Secret>)
      ensures secret == if name in secrets then Some(secrets[name]) else None
    {
      return if name in secrets then Some(secrets[name]) else None;
    }

    method DeleteSecret(name: SecretName) returns (deleted: bool)
      modifies this`secrets
      ensures deleted <==> name != Named("")
      ensures secrets == if deleted then old(secrets) - {name} else old(secrets)
    {
      if name == Named("") {
        return false;
      }
      secrets := secrets - {name};
      return true;
    }
  }
}
