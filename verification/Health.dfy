/** internal/storage/health.go: run outcomes, the failure counter and the notification latch. */
module HealthRecords {
  import opened Schema
  import opened Transactions

  datatype RunStatus = Succeeded | Failed | Deferred

  datatype Transition = Quiet | BecameUnhealthy | Recovered

  predicate DistinctDestinations(keys: set<BindingKey>) {
    forall j, k :: j in keys && k in keys && j.dest == k.dest ==> j == k
  }

  function NoticeDeliveries(dep: DeploymentId, outbox: OutboxId, keys: set<BindingKey>, now: int): map<DeliveryKey, Delivery>
    requires DistinctDestinations(keys)
  {
    map k | k in keys :: DeliveryKey(outbox, k.dest) := Delivery(dep, k.revision, Pending, 0, now, None, None)
  }

  /** enqueueHealthNotification: set the latch, insert the notice, address it to every active binding. */
  function Notify(db: Db, dep: DeploymentId, gen: nat, unhealthy: bool, nonce: nat, now: int): Result<Db>
    requires dep in db.health
  {
    var outbox := Random(nonce);
    var eventId := Notice(unhealthy, outbox);
    var keys := ActiveBindings(db, dep);
    if outbox in db.events
      || (exists o | o in db.events :: db.events[o].dep == dep && db.events[o].kind == HealthNotice && db.events[o].eventId == eventId)
      || (exists k | k in db.deliveries :: k.outbox == outbox)
      || !DistinctDestinations(keys)
    then Err(Duplicate)
    else
      var title := if unhealthy then "Monitor unhealthy" else "Monitor recovered";
      var row := EventRow(NextEventRow(db), dep, HealthNotice, gen, 0, eventId, Message(title, ""), now);
      Ok(db.(health := db.health[dep := db.health[dep].(notified := unhealthy)],
             events := db.events[outbox := row],
             deliveries := db.deliveries + NoticeDeliveries(dep, outbox, keys, now)))
  }

  /** The read both recorders start from: an active deployment and its health row. */
  predicate Watched(db: Db, dep: DeploymentId) {
    dep in db.deployments && db.deployments[dep].status == Active && dep in db.health
  }

  function SetHealth(db: Db, dep: DeploymentId, h: Health): Db {
    db.(health := db.health[dep := h])
  }

  function Degraded(failures: nat, threshold: nat): HealthStatus {
    if failures >= threshold then Unhealthy else Failing
  }

  /** A failure is counted; crossing the threshold with the latch clear notifies once. */
  function CountFailure(db: Db, dep: DeploymentId, gen: nat, nonce: nat, now: int): Outcome<Transition>
    requires Watched(db, dep)
  {
    var h := db.health[dep];
    var threshold := db.deployments[dep].threshold;
    var counted := SetHealth(db, dep, h.(gen := gen, status := Degraded(h.failures + 1, threshold), failures := h.failures + 1));
    if !h.notified && h.failures + 1 >= threshold then
      match Notify(counted, dep, gen, true, nonce, now)
      case Ok(done) => Outcome(done, Ok(BecameUnhealthy))
      case Err(error) => Rolled(db, error)
    else Outcome(counted, Ok(Quiet))
  }

  /** The counter is cleared; a set latch is released with a recovery notice. */
  function ClearFailures(db: Db, dep: DeploymentId, gen: nat, nonce: nat, now: int): Outcome<Transition>
    requires Watched(db, dep)
  {
    var h := db.health[dep];
    var cleared := SetHealth(db, dep, h.(gen := gen, status := Healthy, failures := 0));
    if h.notified then
      match Notify(cleared, dep, gen, false, nonce, now)
      case Ok(done) => Outcome(done, Ok(Recovered))
      case Err(error) => Rolled(db, error)
    else Outcome(cleared, Ok(Quiet))
  }

  function RecordRun(db: Db, dep: DeploymentId, gen: nat, status: RunStatus, nonce: nat, now: int): Outcome<Transition> {
    if dep == "" || gen < 1 then Rolled(db, InvalidInput)
    else if !Watched(db, dep) || db.deployments[dep].activeGeneration != gen then Rolled(db, Fenced)
    else if db.health[dep].gen != gen then Rolled(db, Fenced)
    else
      match status
      case Deferred =>
        var h := db.health[dep];
        var kept := if h.failures >= db.deployments[dep].threshold then Unhealthy
                    else if h.failures > 0 then Failing else h.status;
        Outcome(SetHealth(db, dep, h.(status := kept)), Ok(Quiet))
      case Succeeded => ClearFailures(db, dep, gen, nonce, now)
      case Failed => CountFailure(db, dep, gen, nonce, now)
  }

  /** MarkGenerationStable: a continuous worker that stayed up long enough. */
  function MarkStable(db: Db, dep: DeploymentId, gen: nat, nonce: nat, now: int): Outcome<Transition> {
    if !Watched(db, dep) || db.deployments[dep].activeGeneration != gen then Rolled(db, Fenced)
    else if db.health[dep].gen != gen || db.health[dep].status != Starting then Rolled(db, Fenced)
    else ClearFailures(db, dep, gen, nonce, now)
  }

  /** recordOperationalFailure: `gen` is None when no worker could be launched at all. */
  function RecordFailure(db: Db, dep: DeploymentId, gen: Option<nat>, nonce: nat, now: int): Outcome<Transition> {
    if dep == "" || gen == Some(0) then Rolled(db, InvalidInput)
    else if !Watched(db, dep) then Rolled(db, Fenced)
    else if gen.Some? && db.deployments[dep].activeGeneration != gen.value then Rolled(db, Fenced)
    else CountFailure(db, dep, if gen.Some? then db.deployments[dep].activeGeneration else 0, nonce, now)
  }
}
