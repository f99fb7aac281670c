/** internal/storage/transactions.go: what one transaction frame does to the tables. */
module Transactions {
  import opened Schema

  datatype Mutation = Mutation(source: string, value: Json)

  datatype OutboxDelivery = OutboxDelivery(dest: nat, revision: nat)

  datatype OutboxEvent = OutboxEvent(
    outboxId: OutboxId, eventId: string, message: Message, deliveries: seq<OutboxDelivery>)

  datatype Frame = Frame(
    dep: DeploymentId, gen: nat, token: Token, seqno: nat, base: nat, next: Json,
    checkpoints: seq<Mutation>, events: seq<OutboxEvent>, hash: Digest)
  {
    function Key(): TxKey { TxKey(dep, gen, seqno) }
  }

  /** What a write transaction leaves behind: the tables, and the reply to its caller. */
  datatype Outcome<+R> = Outcome(db: Db, reply: Result<R>)

  function Rolled<R>(db: Db, error: Error): Outcome<R> {
    Outcome(db, Err(error))
  }

  // ---- Frame validation -----------------------------------------------------------------

  /** The characters Unicode calls white space. */
  predicate Space(c: char) {
    || c as int in {0x09, 0x0A, 0x0B, 0x0C, 0x0D, 0x20, 0x85, 0xA0, 0x1680, 0x2028, 0x2029, 0x202F, 0x205F, 0x3000}
    || 0x2000 <= c as int <= 0x200A
  }

  predicate Blank(s: string) {
    forall c :: c in s ==> Space(c)
  }

  predicate DistinctSources(ms: seq<Mutation>) {
    forall i, j :: 0 <= i < j < |ms| ==> ms[i].source != ms[j].source
  }

  predicate DistinctEvents(es: seq<OutboxEvent>) {
    forall i, j :: 0 <= i < j < |es| ==> es[i].eventId != es[j].eventId && es[i].outboxId != es[j].outboxId
  }

  predicate ValidDeliveries(ds: seq<OutboxDelivery>) {
    && (forall i :: 0 <= i < |ds| ==> ds[i].dest > 0 && ds[i].revision > 0)
    && (forall i, j :: 0 <= i < j < |ds| ==> ds[i].dest != ds[j].dest)
  }

  predicate ValidEvent(e: OutboxEvent) {
    e.outboxId != NoOutboxId && e.eventId != "" && !Blank(e.message.title) && ValidDeliveries(e.deliveries)
  }

  predicate ValidFrame(f: Frame) {
    && f.dep != "" && f.gen >= 1 && f.seqno >= 1
    && |f.token| >= 16
    && f.next != ""
    && (forall i :: 0 <= i < |f.checkpoints| ==> f.checkpoints[i].source != "" && f.checkpoints[i].value != "")
    && DistinctSources(f.checkpoints)
    && (forall i :: 0 <= i < |f.events| ==> ValidEvent(f.events[i]))
    && DistinctEvents(f.events)
    && f.hash != NoDigest
  }

  /** What is wrong with an event, field by field. */
  ghost predicate MalformedEvent(e: OutboxEvent) {
    || e.outboxId == NoOutboxId || e.eventId == "" || (forall c :: c in e.message.title ==> Space(c))
    || (exists i :: 0 <= i < |e.deliveries| && (e.deliveries[i].dest == 0 || e.deliveries[i].revision == 0))
    || (exists i, j :: 0 <= i < j < |e.deliveries| && e.deliveries[i].dest == e.deliveries[j].dest)
  }

  /** What is wrong with a frame, field by field: the contracts of the store say it this way. */
  ghost predicate Malformed(f: Frame) {
    || f.dep == "" || f.gen == 0 || f.seqno == 0 || |f.token| < 16 || f.next == "" || f.hash == NoDigest
    || (exists i :: 0 <= i < |f.checkpoints| && (f.checkpoints[i].source == "" || f.checkpoints[i].value == ""))
    || (exists i, j :: 0 <= i < j < |f.checkpoints| && f.checkpoints[i].source == f.checkpoints[j].source)
    || (exists i :: 0 <= i < |f.events| && MalformedEvent(f.events[i]))
    || (exists i, j :: 0 <= i < j < |f.events| && f.events[i].eventId == f.events[j].eventId)
    || (exists i, j :: 0 <= i < j < |f.events| && f.events[i].outboxId == f.events[j].outboxId)
  }

  lemma MalformedEvents(e: OutboxEvent)
    ensures MalformedEvent(e) <==> !ValidEvent(e)
  {
  }

  lemma MalformedFrames(f: Frame)
    ensures Malformed(f) <==> !ValidFrame(f)
  {
    hide ValidEvent, MalformedEvent;
    forall e | e in f.events ensures MalformedEvent(e) <==> !ValidEvent(e) {
      MalformedEvents(e);
    }
  }

  // ---- Ledger lookup and fence ----------------------------------------------------------

  /** The receipt the ledger holds for a frame, or the reason it cannot be used. */
  function Lookup(db: Db, f: Frame): Option<Result<Ack>> {
    if f.Key() !in db.ledger then None
    else if db.ledger[f.Key()].hash == f.hash then Some(Ok(db.ledger[f.Key()].ack))
    else Some(Err(PayloadConflict))
  }

  /** Why an unledgered frame may not be applied now. */
  function Refusal(db: Db, f: Frame): Option<Error> {
    if f.dep !in db.deployments then Some(Fenced) else
    var d := db.deployments[f.dep];
    if !IsCurrent(db, GenKey(f.dep, d.activeGeneration)) then Some(Fenced) else
    var g := db.generations[GenKey(f.dep, d.activeGeneration)];
    if d.activeGeneration != f.gen || g.token != f.token then Some(Fenced)
    else if f.seqno <= g.lastSeq then Some(MissingSequence)
    else if f.seqno != g.lastSeq + 1 then Some(SequenceConflict)
    else if f.base != d.revision then Some(StateConflict)
    else None
  }

  // ---- The four writes ------------------------------------------------------------------

  function AckFor(f: Frame): Ack {
    Ack(f.dep, f.gen, f.seqno, f.hash, f.base + 1, Accepted)
  }

  function CheckpointRows(f: Frame): map<CheckpointKey, Checkpoint>
    requires DistinctSources(f.checkpoints)
  {
    map m | m in f.checkpoints :: CheckpointKey(f.dep, m.source) := Checkpoint(m.value, f.gen, f.seqno)
  }

  /** State, sequence, receipt and checkpoints move together. */
  function Advance(db: Db, f: Frame): Db
    requires DistinctSources(f.checkpoints)
    requires f.dep in db.deployments && GenKey(f.dep, f.gen) in db.generations
  {
    var d := db.deployments[f.dep];
    var g := db.generations[GenKey(f.dep, f.gen)];
    db.(deployments := db.deployments[f.dep := d.(state := f.next, revision := f.base + 1)],
        generations := db.generations[GenKey(f.dep, f.gen) := g.(lastSeq := f.seqno)],
        ledger := db.ledger[f.Key() := LedgerRow(f.hash, f.base, f.base + 1, AckFor(f))],
        checkpoints := db.checkpoints + CheckpointRows(f))
  }

  predicate Occupies(row: EventRow, dep: DeploymentId, eventId: EventId) {
    row.dep == dep && row.kind == Monitor && row.eventId == eventId
  }

  predicate Occurred(db: Db, dep: DeploymentId, eventId: EventId) {
    exists o | o in db.events :: Occupies(db.events[o], dep, eventId)
  }

  predicate OccurredAs(db: Db, dep: DeploymentId, eventId: EventId, message: Message) {
    exists o | o in db.events :: Occupies(db.events[o], dep, eventId) && db.events[o].message == message
  }

  function DeliveryRows(dep: DeploymentId, outbox: OutboxId, ds: seq<OutboxDelivery>, now: int): map<DeliveryKey, Delivery>
    requires ValidDeliveries(ds)
  {
    map d | d in ds :: DeliveryKey(outbox, d.dest) := Delivery(dep, d.revision, Pending, 0, now, None, None)
  }

  predicate Deliverable(db: Db, dep: DeploymentId, outbox: OutboxId, ds: seq<OutboxDelivery>) {
    forall d :: d in ds ==>
      BindingKey(dep, d.dest, d.revision) in db.bindings && DeliveryKey(outbox, d.dest) !in db.deliveries
  }

  /** One event and its deliveries; an identical earlier occurrence absorbs it. */
  function InsertEvent(db: Db, f: Frame, e: OutboxEvent, now: int): Result<Db>
    requires ValidEvent(e)
  {
    if e.outboxId in db.events || Occurred(db, f.dep, Named(e.eventId)) then
      if OccurredAs(db, f.dep, Named(e.eventId), e.message) then Ok(db)
      else if Occurred(db, f.dep, Named(e.eventId)) then Err(PayloadConflict)
      else Err(Duplicate)
    else if !Deliverable(db, f.dep, e.outboxId, e.deliveries) then Err(ForeignKey)
    else
      var row := EventRow(NextEventRow(db), f.dep, Monitor, f.gen, f.seqno, Named(e.eventId), e.message, now);
      Ok(db.(events := db.events[e.outboxId := row],
             deliveries := db.deliveries + DeliveryRows(f.dep, e.outboxId, e.deliveries, now)))
  }

  function InsertEvents(db: Db, f: Frame, es: seq<OutboxEvent>, now: int): Result<Db>
    requires forall i :: 0 <= i < |es| ==> ValidEvent(es[i])
  {
    if es == [] then Ok(db)
    else
      var before := es[..|es| - 1];
      assert forall i :: 0 <= i < |before| ==> before[i] == es[i];
      var done :- InsertEvents(db, f, before, now);
      InsertEvent(done, f, es[|es| - 1], now)
  }

  /** ApplyTransaction: the whole frame once, or its durable receipt, or nothing. */
  function Apply(db: Db, f: Frame, now: int): Outcome<Ack> {
    if !ValidFrame(f) then Rolled(db, InvalidInput)
    else match Lookup(db, f)
      case Some(answer) => Outcome(db, answer)
      case None =>
        match Refusal(db, f)
        case Some(error) => Rolled(db, error)
        case None =>
          match InsertEvents(Advance(db, f), f, f.events, now)
          case Err(error) => Rolled(db, error)
          case Ok(done) => Outcome(done, Ok(AckFor(f)))
  }

  lemma {:induction false} InsertsFail(db: Db, f: Frame, es: seq<OutboxEvent>, now: int)
    requires forall i :: 0 <= i < |es| ==> ValidEvent(es[i])
    ensures InsertEvents(db, f, es, now) != Err(InvalidInput)
  {
    if es != [] {
      InsertsFail(db, f, es[..|es| - 1], now);
    }
  }

  /** A frame is answered InvalidInput for what is wrong with it, and for nothing the tables hold. */
  lemma InvalidMeansMalformed(db: Db, f: Frame, now: int)
    ensures Apply(db, f, now).reply == Err(InvalidInput) <==> Malformed(f)
  {
    MalformedFrames(f);
    if ValidFrame(f) && Lookup(db, f).None? && Refusal(db, f).None? {
      InsertsFail(Advance(db, f), f, f.events, now);
    }
  }

  /** The frame takes effect in this call, as opposed to being answered from the ledger. */
  predicate TakesEffect(db: Db, f: Frame, now: int) {
    && ValidFrame(f) && Lookup(db, f).None? && Refusal(db, f).None?
    && InsertEvents(Advance(db, f), f, f.events, now).Ok?
  }
}
