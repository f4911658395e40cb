/** Signed, hash-linked run events. The digest and the signature scheme are parameters. */
module Events {
  import opened Arithmetic
  import Policy

  /** A 256-bit digest as a number; sixty-four zeros are the number zero. */
  type Hash = nat

  const ZERO_HASH: Hash := 0

  const PROTOCOL_V1: string := "crow.harness.v1"

  datatype Kind =
    | RunStarted | HandoffSnapshot | RunPaused | RunResumed | RunStopped
    | SettingsChanged | StrategyChanged
    | CycleStarted | MissedCycle | CycleFailed
    | BookObserved | CandleClosed | PortfolioObserved | InferenceReceipt
    | ProposalMade | PolicyOutcome | OrderSubmitted | VenueAcknowledgement
    | FillsReported | FundingReported | Reconciled

  /** What a payload says, as far as the properties need it: `Window` stands for the fills or
      funding reported for a span of time, `ClientOrder` for the order being dispatched, `Boundary`
      for the scheduled start a missed cycle stands for. */
  datatype Payload =
    | Opaque(data: nat)
    | Window(start: int, end: int)
    | ClientOrder(id: nat, order: Policy.OrderDecision)
    | Boundary(scheduledAt: int)

  /** Everything the digest covers. */
  datatype HashedFields = HashedFields(
    protocol: string,
    eventId: nat,
    arenaId: nat,
    runId: nat,
    cycleId: Option<nat>,
    sequence: u64,
    previous: Hash,
    kind: Kind,
    occurredAt: int,
    payload: Payload)

  datatype Envelope = Envelope(
    fields: HashedFields,
    sha: Hash,
    publicKey: nat,
    signature: nat,
    receipt: Option<string>)

  /** The digest of canonical JSON, and signature verification of a digest under a key. */
  datatype Crypto = Crypto(digest: HashedFields -> Hash, accepts: (nat, nat, Hash) -> bool)

  ghost predicate Injective(crypto: Crypto) {
    forall a, b :: crypto.digest(a) == crypto.digest(b) ==> a == b
  }

  predicate Verified(crypto: Crypto, event: Envelope) {
    && event.fields.protocol == PROTOCOL_V1
    && crypto.digest(event.fields) == event.sha
    && crypto.accepts(event.publicKey, event.signature, event.sha)
  }

  datatype Identity = Identity(publicKey: nat, sign: Hash -> nat)

  /** The identity's own signatures verify. */
  ghost predicate Authentic(crypto: Crypto, identity: Identity) {
    forall digest :: crypto.accepts(identity.publicKey, identity.sign(digest), digest)
  }

  function Sign(crypto: Crypto, identity: Identity, fields: HashedFields): (event: Envelope) {
    var sha := crypto.digest(fields);
    Envelope(fields, sha, identity.publicKey, identity.sign(sha), None)
  }

  /** The event follows a chain of `length` events whose last hash is `tip`. */
  predicate Follows(event: Envelope, length: nat, tip: Hash) {
    event.fields.sequence == length + 1 && event.fields.previous == tip
  }

  /** The events of one run, in order. */
  function OfRun(events: seq<Envelope>, runId: nat): seq<Envelope> {
    if events == [] then []
    else
      var last := events[|events| - 1];
      OfRun(events[..|events| - 1], runId) + (if last.fields.runId == runId then [last] else [])
  }

  function Tip(chain: seq<Envelope>): Hash {
    if chain == [] then ZERO_HASH else chain[|chain| - 1].sha
  }

  /** A verified chain without gaps from sequence one and the zero hash. */
  predicate Chain(crypto: Crypto, chain: seq<Envelope>) {
    forall i :: 0 <= i < |chain| ==>
      Verified(crypto, chain[i]) && Follows(chain[i], i, Tip(chain[..i]))
  }

  lemma ChainExtends(crypto: Crypto, chain: seq<Envelope>, event: Envelope)
    ensures Chain(crypto, chain + [event])
            <==> && Chain(crypto, chain)
                 && Verified(crypto, event) && Follows(event, |chain|, Tip(chain))
  {
    var longer := chain + [event];
    var n := |chain|;
    assert forall i :: 0 <= i <= n ==> longer[..i] == chain[..i];
    assert chain[..n] == chain;
    if Chain(crypto, longer) {
      assert Verified(crypto, longer[n]) && Follows(longer[n], n, Tip(longer[..n]));
      forall i | 0 <= i < n ensures Verified(crypto, chain[i]) && Follows(chain[i], i, Tip(chain[..i])) {
        assert longer[i] == chain[i];
      }
    }
  }

  lemma SameDigest(crypto: Crypto, a: Envelope, b: Envelope)
    requires Injective(crypto) && Verified(crypto, a) && Verified(crypto, b) && a.sha == b.sha
    ensures a.fields == b.fields
  {
  }

  /** With an injective digest the tip of a verified chain determines every hashed field of every
      event in it, whoever signed them. */
  lemma {:induction false} TipDeterminesChain(crypto: Crypto, a: seq<Envelope>, b: seq<Envelope>)
    requires Injective(crypto) && Chain(crypto, a) && Chain(crypto, b)
    requires a != [] && b != [] && Tip(a) == Tip(b)
    ensures |a| == |b|
    ensures forall i :: 0 <= i < |a| ==> a[i].fields == b[i].fields && a[i].sha == b[i].sha
  {
    hide Injective, Chain, Verified;
    var m, n := |a| - 1, |b| - 1;
    assert a == a[..m] + [a[m]] && b == b[..n] + [b[n]];
    ChainExtends(crypto, a[..m], a[m]);
    ChainExtends(crypto, b[..n], b[n]);
    SameDigest(crypto, a[m], b[n]);
    if m > 0 {
      TipDeterminesChain(crypto, a[..m], b[..n]);
      forall i | 0 <= i < m ensures a[i].fields == b[i].fields && a[i].sha == b[i].sha {
        assert a[..m][i].fields == b[..n][i].fields && a[..m][i].sha == b[..n][i].sha;
      }
    }
  }
}
