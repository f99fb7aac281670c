/** The durable tables of internal/storage/schema.sql as one immutable value.

    A write transaction turns one `Db` into the next or leaves it alone, so the value
    type is what a transaction commits; the class `Store` (Store.dfy) holds the current one.
    Digests and random identifiers are structural values: equal digests mean equal inputs. */
module Schema {
  type DeploymentId = string
  type Json = string
  type Token = seq<bv8>

  datatype Option<+T> = None | Some(value: T)

  datatype Status = Active | Inactive | Archived

  datatype Deployment = Deployment(
    name: string, status: Status, artifact: string, configRevision: nat, configHash: string,
    threshold: nat, retention: int, activeGeneration: nat, state: Json, revision: nat,
    expiresAt: Option<int>)

  datatype GenKey = GenKey(dep: DeploymentId, gen: nat)

  datatype GenStatus = Current | Retired

  datatype Generation = Generation(
    rowid: nat, token: Token, artifact: string, configRevision: nat, fingerprint: string,
    status: GenStatus, lastSeq: nat, readyAt: Option<int>, retiredAt: Option<int>)

  /** The body of an event; the store hashes it before it stamps the delivery time. */
  datatype Message = Message(title: string, body: string)

  datatype WireEvent = WireEvent(id: string, message: Message)

  datatype Digest =
    | NoDigest
    | Digest(dep: DeploymentId, gen: nat, token: Token, seqno: nat, base: nat, next: Json,
             checkpoints: map<string, Json>, events: seq<WireEvent>)

  datatype AckStatus = Accepted | Replayed | Refused

  datatype Ack = Ack(dep: DeploymentId, gen: nat, seqno: nat, hash: Digest, result: nat, status: AckStatus)

  datatype TxKey = TxKey(dep: DeploymentId, gen: nat, seqno: nat)

  datatype LedgerRow = LedgerRow(hash: Digest, base: nat, result: nat, ack: Ack)

  datatype CheckpointKey = CheckpointKey(dep: DeploymentId, source: string)

  datatype Checkpoint = Checkpoint(value: Json, gen: nat, seqno: nat)

  /** Destination identifiers are `destination-<index>`; index 0 stands for the empty identifier. */
  datatype BindingKey = BindingKey(dep: DeploymentId, dest: nat, revision: nat)

  datatype Binding = Binding(config: Json, retired: bool)

  /** A monitor event's identifier digests (deployment, generation, sequence, index); others are random. */
  datatype OutboxId = NoOutboxId | Derived(dep: DeploymentId, gen: nat, seqno: nat, index: nat) | Random(nonce: nat)

  datatype EventKind = Monitor | HealthNotice

  datatype EventId = Named(text: string) | Notice(unhealthy: bool, outbox: OutboxId)

  datatype EventRow = EventRow(
    rowid: nat, dep: DeploymentId, kind: EventKind, gen: nat, seqno: nat, eventId: EventId,
    message: Message, createdAt: int)

  datatype DeliveryKey = DeliveryKey(outbox: OutboxId, dest: nat)

  datatype DeliveryStatus = Pending | Sending | Delivered | Dead

  datatype Owner = Owner(name: string, claim: nat)

  datatype Delivery = Delivery(
    dep: DeploymentId, revision: nat, status: DeliveryStatus, attempts: nat, nextAttempt: int,
    owner: Option<Owner>, leaseExpires: Option<int>)

  datatype HealthStatus = Starting | Healthy | Failing | Unhealthy | Stopped

  datatype Health = Health(gen: nat, status: HealthStatus, failures: nat, notified: bool)

  datatype SweepName = OutboxSweep | LedgerSweep

  datatype Cursor = Cursor(after: nat, through: nat, nextSweep: int, generation: nat, seqno: nat)

  const ZERO_CURSOR := Cursor(0, 0, 0, 0, 0)

  datatype Db = Db(
    deployments: map<DeploymentId, Deployment>,
    names: map<string, DeploymentId>,
    generations: map<GenKey, Generation>,
    ledger: map<TxKey, LedgerRow>,
    checkpoints: map<CheckpointKey, Checkpoint>,
    bindings: map<BindingKey, Binding>,
    events: map<OutboxId, EventRow>,
    deliveries: map<DeliveryKey, Delivery>,
    health: map<DeploymentId, Health>,
    cursors: map<SweepName, Cursor>)

  const EMPTY_DB := Db(map[], map[], map[], map[], map[], map[], map[], map[], map[], map[])

  datatype Error =
    | InvalidInput | NotFound | InvalidStatus | StateConflict | Fenced | SequenceConflict
    | MissingSequence | PayloadConflict | ForeignKey | Duplicate | LeaseLost | CommitFailed
    | QueuedDeliveries | SnapshotChanged

  datatype Result<+T> = Ok(value: T) | Err(error: Error) {
    predicate IsFailure() {
      Err?
    }

    function PropagateFailure<U>(): Result<U>
      requires Err?
    {
      Err(error)
    }

    function Extract(): T
      requires Ok?
    {
      value
    }
  }

  // ---- Views of the tables --------------------------------------------------------------

  predicate IsCurrent(db: Db, key: GenKey) {
    key in db.generations && db.generations[key].status == Current
  }

  function CheckpointsOf(db: Db, dep: DeploymentId): map<string, Json> {
    map k | k in db.checkpoints && k.dep == dep :: k.source := db.checkpoints[k].value
  }

  /** The destinations a new event of `dep` is delivered to. */
  function ActiveBindings(db: Db, dep: DeploymentId): set<BindingKey> {
    set k | k in db.bindings && k.dep == dep && !db.bindings[k].retired
  }

  /** `COALESCE(MAX(...), 0)` over a column of non-negative integers. */
  function Highest(s: set<nat>): (m: nat)
    ensures forall x :: x in s ==> x <= m
    ensures m == 0 || m in s
  {
    if s == {} then 0 else
      HighestExists(s);
      var x :| x in s && forall y :: y in s ==> y <= x;
      x
  }

  lemma {:induction false} HighestExists(s: set<nat>)
    requires s != {}
    ensures exists x :: x in s && forall y :: y in s ==> y <= x
  {
    var a :| a in s;
    if s != {a} {
      HighestExists(s - {a});
      var b :| b in s - {a} && forall y :: y in s - {a} ==> y <= b;
      var top := if a <= b then b else a;
      forall y | y in s ensures y <= top {
        assert y == a || y in s - {a};
      }
      assert top in s;
    }
  }

  function NextEventRow(db: Db): nat {
    Highest(set o | o in db.events :: db.events[o].rowid) + 1
  }

  function NextGenerationRow(db: Db): nat {
    Highest(set k | k in db.generations :: db.generations[k].rowid) + 1
  }

  function LatestGeneration(db: Db, dep: DeploymentId): (m: nat)
    ensures forall k :: k in db.generations && k.dep == dep ==> k.gen <= m
    ensures m == 0 || GenKey(dep, m) in db.generations
  {
    var gens := set k | k in db.generations && k.dep == dep :: k.gen;
    assert forall k :: k in db.generations && k.dep == dep ==> k.gen in gens;
    Highest(gens)
  }
}
