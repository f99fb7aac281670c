/** internal/storage/outbox.go: leases on delivery rows. */
module Outbox {
  import opened Schema
  import opened Transactions

  predicate Due(d: Delivery, now: int) {
    || (d.status == Pending && d.nextAttempt <= now)
    || (d.status == Sending && d.leaseExpires.Some? && d.leaseExpires.value <= now)
  }

  function DueRows(db: Db, now: int): set<DeliveryKey> {
    set k | k in db.deliveries && Due(db.deliveries[k], now)
  }

  /** `ORDER BY next_attempt_at LIMIT limit` over the due rows; ties may fall either way. */
  predicate Selects(db: Db, now: int, limit: nat, chosen: set<DeliveryKey>) {
    && chosen <= DueRows(db, now)
    && |chosen| <= limit
    && (|chosen| < limit ==> chosen == DueRows(db, now))
    && forall j, k :: j in chosen && k in DueRows(db, now) - chosen ==> db.deliveries[j].nextAttempt <= db.deliveries[k].nextAttempt
  }

  /** The update of ClaimOutbox. */
  function Lease(db: Db, owner: Owner, expires: int, chosen: set<DeliveryKey>): Db {
    db.(deliveries := map k | k in db.deliveries ::
      if k in chosen then db.deliveries[k].(status := Sending, owner := Some(owner), leaseExpires := Some(expires))
      else db.deliveries[k])
  }

  /** What the joining query of ClaimOutbox hands back to the claimer. */
  function Claimed(db: Db, owner: Owner, expires: int): set<DeliveryKey> {
    set k | k in db.deliveries
      && db.deliveries[k].status == Sending && db.deliveries[k].owner == Some(owner) && db.deliveries[k].leaseExpires == Some(expires)
      && k.outbox in db.events && db.events[k.outbox].dep == db.deliveries[k].dep
      && db.events[k.outbox].dep in db.deployments
      && BindingKey(db.deliveries[k].dep, k.dest, db.deliveries[k].revision) in db.bindings
  }

  predicate Holds(db: Db, k: DeliveryKey, owner: Owner) {
    k in db.deliveries && db.deliveries[k].status == Sending && db.deliveries[k].owner == Some(owner)
  }

  /** finishDelivery: the guarded update that ends a lease. */
  function Settle(db: Db, k: DeliveryKey, owner: Owner, status: DeliveryStatus, counted: nat, next: Option<int>): Outcome<()> {
    if !Holds(db, k, owner) then Rolled(db, LeaseLost) else
    var d := db.deliveries[k];
    var ended := d.(status := status, attempts := d.attempts + counted, owner := None, leaseExpires := None,
                    nextAttempt := if next.Some? then next.value else d.nextAttempt);
    Outcome(db.(deliveries := db.deliveries[k := ended]), Ok(()))
  }

  function MarkDelivered(db: Db, k: DeliveryKey, owner: Owner): Outcome<()> {
    Settle(db, k, owner, Delivered, 0, None)
  }

  function Defer(db: Db, k: DeliveryKey, owner: Owner, next: int): Outcome<()> {
    Settle(db, k, owner, Pending, 0, Some(next))
  }

  /** The separate read MarkDeliveryFailed takes its attempt count from. */
  function ReadAttempts(db: Db, k: DeliveryKey, owner: Owner): Result<nat> {
    if Holds(db, k, owner) then Ok(db.deliveries[k].attempts) else Err(LeaseLost)
  }

  /** The guarded write of MarkDeliveryFailed, given the count read before. */
  function MarkFailed(db: Db, k: DeliveryKey, owner: Owner, attempts: nat, next: int, maxAttempts: nat): Outcome<()> {
    if maxAttempts < 1 then Rolled(db, InvalidInput)
    else if attempts + 1 >= maxAttempts then Settle(db, k, owner, Dead, 1, None)
    else Settle(db, k, owner, Pending, 1, Some(next))
  }

  function RetryDead(db: Db, k: DeliveryKey, now: int): Outcome<()> {
    if k in db.deliveries && db.deliveries[k].status == Dead
    then Outcome(db.(deliveries := db.deliveries[k := db.deliveries[k].(status := Pending, attempts := 0, nextAttempt := now)]), Ok(()))
    else Rolled(db, NotFound)
  }
}
