/** The durable event writer: flush what is pending, sign, store, deliver, acknowledge. The sink and
    crashes are a script of answers; an exhausted script is a crash. */
module Writer {
  import opened Arithmetic
  import opened Events
  import opened Journal

  /** Who signs, and for which run. */
  datatype Origin = Origin(crypto: Crypto, identity: Identity, arenaId: nat, runId: nat)

  datatype Draft = Draft(cycleId: Option<nat>, kind: Kind, occurredAt: int, payload: Payload)

  /** What one delivery meets: a receipt, a refusal, an accepted event whose reply is lost, or a
      crash of this process before or after the sink accepted. */
  datatype Answer = Acked(receipt: string) | Refused | ReplyLost | CrashedBefore | CrashedAfter

  /** One delivery of an event and the answer it met. */
  datatype Meeting = Meeting(event: Envelope, answer: Answer)

  /** Durable rows, the events the sink has accepted in order, the answers still to come, the supply of
      identifiers that never repeat, and a history variable: every delivery so far. */
  datatype Wire = Wire(
    rows: seq<Row>,
    server: seq<Envelope>,
    script: seq<Answer>,
    nextId: nat,
    met: seq<Meeting>)

  datatype Outcome = Done | SinkFailed | JournalFailed | Crashed

  datatype Delivery = Receipt(text: string) | NoReply | Gone

  predicate Knows(server: seq<Envelope>, id: nat) {
    exists i :: 0 <= i < |server| && server[i].fields.eventId == id
  }

  /** The sink is idempotent per event id. */
  function Accept(server: seq<Envelope>, event: Envelope): seq<Envelope> {
    if Knows(server, event.fields.eventId) then server else server + [event]
  }

  function Deliver(wire: Wire, event: Envelope): (Wire, Delivery) {
    if wire.script == [] then (wire, Gone)
    else
      var rest := wire.(script := wire.script[1..], met := wire.met + [Meeting(event, wire.script[0])]);
      var accepted := rest.(server := Accept(wire.server, event));
      match wire.script[0]
      case Acked(receipt) => (accepted, Receipt(receipt))
      case Refused => (rest, NoReply)
      case ReplyLost => (accepted, NoReply)
      case CrashedBefore => (rest, Gone)
      case CrashedAfter => (accepted, Gone)
  }

  /** Deliver an event and record its receipt. */
  function Settle(wire: Wire, event: Envelope): (Wire, Outcome) {
    var (sent, delivery) := Deliver(wire, event);
    match delivery
    case NoReply => (sent, SinkFailed)
    case Gone => (sent, Crashed)
    case Receipt(text) =>
      var (rows, acknowledged) := Acknowledge(sent.rows, event.fields.eventId, text);
      (sent.(rows := rows), if acknowledged then Done else JournalFailed)
  }

  function SettleAll(wire: Wire, events: seq<Envelope>): (Wire, Outcome)
    decreases |events|
  {
    if events == [] then (wire, Done)
    else
      var (next, outcome) := Settle(wire, events[0]);
      if outcome != Done then (next, outcome) else SettleAll(next, events[1..])
  }

  function Flush(origin: Origin, wire: Wire): (Wire, Outcome) {
    var pending := Pending(RunRows(wire.rows, origin.runId));
    if AllVerified(origin.crypto, pending) then SettleAll(wire, pending) else (wire, JournalFailed)
  }

  function NextFields(origin: Origin, wire: Wire, draft: Draft): HashedFields {
    var (sequence, previous) :=
      match Latest(wire.rows, origin.runId)
      case None => (1, ZERO_HASH)
      case Some(row) => (Min(row.sequence + 1, U64_MAX), row.sha);
    HashedFields(PROTOCOL_V1, wire.nextId, origin.arenaId, origin.runId, draft.cycleId, sequence,
                 previous, draft.kind, draft.occurredAt, draft.payload)
  }

  function NextEvent(origin: Origin, wire: Wire, draft: Draft): Envelope {
    Sign(origin.crypto, origin.identity, NextFields(origin, wire, draft))
  }

  /** Store the signed event if the journal takes it, then deliver it. */
  function Post(origin: Origin, wire: Wire, draft: Draft): (Wire, Outcome) {
    var event := NextEvent(origin, wire, draft);
    var signed := wire.(nextId := wire.nextId + 1);
    if !Appendable(origin.crypto, wire.rows, event) then (signed, JournalFailed)
    else Settle(signed.(rows := Insert(wire.rows, RowOf(event))), event)
  }

  function Append(origin: Origin, wire: Wire, draft: Draft): (Wire, Outcome) {
    var (flushed, outcome) := Flush(origin, wire);
    if outcome != Done then (flushed, outcome) else Post(origin, flushed, draft)
  }

  // ---------------------------------------------------------------- the writer object

  /** The receiving side together with whatever the environment will do next. */
  class Sink {
    var accepted: seq<Envelope>
    var script: seq<Answer>
    var nextId: nat
    ghost var met: seq<Meeting>

    constructor (script: seq<Answer>)
      ensures accepted == [] && this.script == script && nextId == 0 && met == []
    {
      accepted := [];
      this.script := script;
      nextId := 0;
      met := [];
    }

    method AppendEvent(event: Envelope) returns (delivery: Delivery)
      modifies this`accepted, this`script, this`met
      ensures forall rows :: Deliver(Wire(rows, old(accepted), old(script), nextId, old(met)), event)
                             == (Wire(rows, accepted, script, nextId, met), delivery)
    {
      if script == [] {
        return Gone;
      }
      var answer := script[0];
      script := script[1..];
      met := met + [Meeting(event, answer)];
      if answer.Acked? || answer.ReplyLost? || answer.CrashedAfter? {
        accepted := Accept(accepted, event);
      }
      match answer {
        case Acked(receipt) => return Receipt(receipt);
        case Refused => return NoReply;
        case ReplyLost => return NoReply;
        case CrashedBefore => return Gone;
        case CrashedAfter => return Gone;
      }
    }

    method FreshId() returns (id: nat)
      modifies this`nextId
      ensures id == old(nextId) && nextId == old(nextId) + 1
    {
      id := nextId;
      nextId := nextId + 1;
    }
  }

  class DurableRunEventWriter {
    const journal: EncryptedJournal
    const sink: Sink
    const origin: Origin

    constructor (journal: EncryptedJournal, sink: Sink, origin: Origin)
      requires journal.crypto == origin.crypto
      ensures this.journal == journal && this.sink == sink && this.origin == origin
    {
      this.journal := journal;
      this.sink := sink;
      this.origin := origin;
    }

    ghost function Wired(): Wire
      reads journal, sink
    {
      Wire(journal.rows, sink.accepted, sink.script, sink.nextId, sink.met)
    }

    ghost predicate Valid() {
      journal.crypto == origin.crypto
    }

    /** Deliver one stored event and acknowledge it. */
    method SettleEvent(event: Envelope) returns (outcome: Outcome)
      requires Valid()
      modifies journal`rows, sink`accepted, sink`script, sink`met
      ensures (Wired(), outcome) == Settle(old(Wired()), event)
    {
      var delivery := sink.AppendEvent(event);
      match delivery {
        case NoReply => return SinkFailed;
        case Gone => return Crashed;
        case Receipt(text) =>
          var acknowledged := journal.AcknowledgeEvent(event.fields.eventId, text);
          return if acknowledged then Done else JournalFailed;
      }
    }

    method FlushPending() returns (outcome: Outcome, acknowledged: nat)
      requires Valid()
      modifies journal`rows, sink`accepted, sink`script, sink`met
      ensures (Wired(), outcome) == Flush(origin, old(Wired()))
      ensures outcome == Done ==>
                acknowledged == |Pending(RunRows(old(journal.rows), origin.runId))|
    {
      acknowledged := 0;
      var pending := journal.PendingEvents(origin.runId);
      if pending.Err? {
        return JournalFailed, 0;
      }
      while acknowledged < |pending.value|
        invariant acknowledged <= |pending.value|
        invariant SettleAll(Wired(), pending.value[acknowledged..])
                  == SettleAll(old(Wired()), pending.value)
      {
        var settled := SettleEvent(pending.value[acknowledged]);
        if settled != Done {
          return settled, acknowledged;
        }
        assert pending.value[acknowledged..][1..] == pending.value[acknowledged + 1..];
        acknowledged := acknowledged + 1;
      }
      return Done, acknowledged;
    }

    /** Sign the next event of the chain, store it, deliver it. */
    method PostDraft(draft: Draft) returns (outcome: Outcome)
      requires Valid()
      modifies journal`rows, sink
      ensures (Wired(), outcome) == Post(origin, old(Wired()), draft)
    {
      hide Settle, Appendable, Insert, Latest, Verified;
      var latest := journal.LatestEventState(origin.runId);
      var sequence, previous := 1, ZERO_HASH;
      if latest.Some? {
        sequence, previous := Min(latest.value.0 + 1, U64_MAX), latest.value.1;
      }
      ghost var before := Wired();
      var id := sink.FreshId();
      var fields := HashedFields(PROTOCOL_V1, id, origin.arenaId, origin.runId, draft.cycleId,
                                 sequence, previous, draft.kind, draft.occurredAt, draft.payload);
      assert fields == NextFields(origin, before, draft);
      var event := Sign(origin.crypto, origin.identity, fields);
      hide Sign, NextFields;
      var stored := journal.Append(event);
      if stored.Err? {
        return JournalFailed;
      }
      outcome := SettleEvent(event);
    }

    /** Flush first; only then is the new event signed and posted. */
    method AppendEvent(draft: Draft) returns (outcome: Outcome)
      requires Valid()
      modifies journal`rows, sink
      ensures (Wired(), outcome) == Append(origin, old(Wired()), draft)
    {
      hide Flush, Post;
      var flushed, _ := FlushPending();
      if flushed != Done {
        return flushed;
      }
      outcome := PostDraft(draft);
    }
  }
}
