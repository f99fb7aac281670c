/** Health records, leases and retention keep the invariant and never disturb a worker. */
module OutboxIntegrity {
  import opened Schema
  import opened Integrity
  import opened HealthRecords
  import opened Outbox
  import opened Retention

  /** Only health, the outbox and the sweep cursors may differ. */
  ghost predicate OutboxOnly(a: Db, b: Db) {
    b == a.(health := b.health, events := b.events, deliveries := b.deliveries, cursors := b.cursors)
  }

  lemma OutboxOnlyKeeps(a: Db, b: Db)
    requires Inv(a) && OutboxOnly(a, b) && b.health.Keys == a.health.Keys && HealthOk(b.health)
    requires OutboxOk(b)
    ensures Inv(b) && Settles(a, b)
  {
    OutboxOnlySettles(a, b);
    OutboxOnlyRest(a, b);
  }

  lemma OutboxOnlySettles(a: Db, b: Db)
    requires FenceOk(a) && OutboxOnly(a, b)
    ensures FenceOk(b) && Settles(a, b)
  {
    UnchangedSettles(a.deployments, b.deployments, a.generations);
    SameVersions(a, b);
    SameLedgerSettles(a.deployments, a.generations, b.generations, a.ledger);
    forall k | IsCurrent(b, k) ensures Undisturbed(a, b, k.dep) {
      assert GenerationOk(a.deployments, k, a.generations[k]);
    }
  }

  lemma OutboxOnlyRest(a: Db, b: Db)
    requires NamesOk(a.deployments, a.names) && OwnersOk(a) && OutboxOnly(a, b) && b.health.Keys == a.health.Keys
    ensures NamesOk(b.deployments, b.names) && OwnersOk(b)
  {
  }

  // ---- Health ---------------------------------------------------------------------------

  /** A health row that satisfies its clause replaces one of the same deployment. */
  lemma SetHealthKeeps(db: Db, dep: DeploymentId, h: Health)
    requires Inv(db) && dep in db.health && (h.status == Healthy ==> h.failures == 0 && !h.notified)
    ensures Inv(SetHealth(db, dep, h)) && Settles(db, SetHealth(db, dep, h))
  {
    OutboxOnlyKeeps(db, SetHealth(db, dep, h));
  }

  lemma NoticeRow(db: Db, dep: DeploymentId, gen: nat, unhealthy: bool, nonce: nat, now: int)
    requires OutboxOk(db) && dep in db.deployments && dep in db.health
    requires Notify(db, dep, gen, unhealthy, nonce, now).Ok?
    ensures var b := Notify(db, dep, gen, unhealthy, nonce, now).value;
      EventsOk(db.deployments, db.ledger, b.events) && EventKeys(b.events)
  {
    var b := Notify(db, dep, gen, unhealthy, nonce, now).value;
    NewEventKeys(db.events, Random(nonce), b.events[Random(nonce)]) by {
      var rows := set o | o in db.events :: db.events[o].rowid;
      assert forall o :: o in db.events ==> db.events[o].rowid in rows;
    }
  }

  lemma NoticeDeliveriesOk(db: Db, dep: DeploymentId, gen: nat, unhealthy: bool, nonce: nat, now: int)
    requires OutboxOk(db) && dep in db.health
    requires Notify(db, dep, gen, unhealthy, nonce, now).Ok?
    ensures var b := Notify(db, dep, gen, unhealthy, nonce, now).value;
      DeliveriesOk(b.events, db.bindings, b.deliveries)
  {
    var b := Notify(db, dep, gen, unhealthy, nonce, now).value;
    forall k | k in b.deliveries ensures DeliveryOk(b.events, db.bindings, k, b.deliveries[k]) {
      if k in db.deliveries {
        assert DeliveryOk(db.events, db.bindings, k, db.deliveries[k]);
        assert k.outbox != Random(nonce);
      }
    }
  }

  lemma NoticeShape(db: Db, dep: DeploymentId, gen: nat, unhealthy: bool, nonce: nat, now: int)
    requires dep in db.health && Notify(db, dep, gen, unhealthy, nonce, now).Ok?
    ensures var b := Notify(db, dep, gen, unhealthy, nonce, now).value;
      && OutboxOnly(db, b) && b.health == db.health[dep := db.health[dep].(notified := unhealthy)]
      && b.cursors == db.cursors
  {
  }

  /** The row may break its health clause until the latch is written; the pair may not. */
  lemma NotifyKeeps(db: Db, dep: DeploymentId, h: Health, gen: nat, unhealthy: bool, nonce: nat, now: int)
    requires Inv(db) && dep in db.health
    requires h.status == Healthy ==> h.failures == 0 && !unhealthy
    requires Notify(SetHealth(db, dep, h), dep, gen, unhealthy, nonce, now).Ok?
    ensures var b := Notify(SetHealth(db, dep, h), dep, gen, unhealthy, nonce, now).value; Inv(b) && Settles(db, b)
  {
    hide Settles, FenceOk, NamesOk;
    var mid := SetHealth(db, dep, h);
    var b := Notify(mid, dep, gen, unhealthy, nonce, now).value;
    NoticeShape(mid, dep, gen, unhealthy, nonce, now);
    assert OutboxOk(b) by {
      NoticeRow(mid, dep, gen, unhealthy, nonce, now);
      NoticeDeliveriesOk(mid, dep, gen, unhealthy, nonce, now);
    }
    assert b.health == db.health[dep := h.(notified := unhealthy)];
    OutboxOnlyKeeps(db, b);
  }

  /** Either the notice is enqueued with the row, or nothing is written. */
  ghost function NotifyOr(db: Db, dep: DeploymentId, h: Health, gen: nat, unhealthy: bool, nonce: nat, now: int): Db
    requires dep in db.health
  {
    match Notify(SetHealth(db, dep, h), dep, gen, unhealthy, nonce, now)
    case Ok(done) => done
    case Err(_) => db
  }

  lemma NotifyOrKeeps(db: Db, dep: DeploymentId, h: Health, gen: nat, unhealthy: bool, nonce: nat, now: int)
    requires Inv(db) && dep in db.health
    requires h.status == Healthy ==> h.failures == 0 && !unhealthy
    ensures var b := NotifyOr(db, dep, h, gen, unhealthy, nonce, now); Inv(b) && Settles(db, b)
  {
    if Notify(SetHealth(db, dep, h), dep, gen, unhealthy, nonce, now).Ok? {
      NotifyKeeps(db, dep, h, gen, unhealthy, nonce, now);
    } else {
      SettlesSelf(db);
    }
  }

  /** The health row a counted failure writes. */
  ghost function Counted(db: Db, dep: DeploymentId, gen: nat): Health
    requires Watched(db, dep)
  {
    var h := db.health[dep];
    h.(gen := gen, status := Degraded(h.failures + 1, db.deployments[dep].threshold), failures := h.failures + 1)
  }

  lemma CountFailureCases(db: Db, dep: DeploymentId, gen: nat, nonce: nat, now: int)
    requires Watched(db, dep)
    ensures var h := db.health[dep];
      CountFailure(db, dep, gen, nonce, now).db ==
      if !h.notified && h.failures + 1 >= db.deployments[dep].threshold
      then NotifyOr(db, dep, Counted(db, dep, gen), gen, true, nonce, now)
      else SetHealth(db, dep, Counted(db, dep, gen))
    ensures Counted(db, dep, gen).status != Healthy
  {
  }

  lemma CountFailureKeeps(db: Db, dep: DeploymentId, gen: nat, nonce: nat, now: int)
    requires Inv(db) && Watched(db, dep)
    ensures Inv(CountFailure(db, dep, gen, nonce, now).db) && Settles(db, CountFailure(db, dep, gen, nonce, now).db)
  {
    CountFailureCases(db, dep, gen, nonce, now);
    var h := db.health[dep];
    if !h.notified && h.failures + 1 >= db.deployments[dep].threshold {
      NotifyOrKeeps(db, dep, Counted(db, dep, gen), gen, true, nonce, now);
    } else {
      SetHealthKeeps(db, dep, Counted(db, dep, gen));
    }
  }

  lemma ClearFailuresKeeps(db: Db, dep: DeploymentId, gen: nat, nonce: nat, now: int)
    requires Inv(db) && Watched(db, dep)
    ensures Inv(ClearFailures(db, dep, gen, nonce, now).db) && Settles(db, ClearFailures(db, dep, gen, nonce, now).db)
  {
    var h := db.health[dep];
    var row := h.(gen := gen, status := Healthy, failures := 0);
    if h.notified {
      NotifyOrKeeps(db, dep, row, gen, false, nonce, now);
      assert ClearFailures(db, dep, gen, nonce, now).db == NotifyOr(db, dep, row, gen, false, nonce, now);
    } else {
      SetHealthKeeps(db, dep, row);
    }
  }

  lemma RecordRunKeeps(db: Db, dep: DeploymentId, gen: nat, status: RunStatus, nonce: nat, now: int)
    requires Inv(db)
    ensures Inv(RecordRun(db, dep, gen, status, nonce, now).db) && Settles(db, RecordRun(db, dep, gen, status, nonce, now).db)
  {
    if dep == "" || gen < 1 || !Watched(db, dep) || db.deployments[dep].activeGeneration != gen || db.health[dep].gen != gen {
      SettlesSelf(db);
    } else {
      match status
      case Deferred => SetHealthKeeps(db, dep, RecordRun(db, dep, gen, status, nonce, now).db.health[dep]);
      case Succeeded => ClearFailuresKeeps(db, dep, gen, nonce, now);
      case Failed => CountFailureKeeps(db, dep, gen, nonce, now);
    }
  }

  lemma MarkStableKeeps(db: Db, dep: DeploymentId, gen: nat, nonce: nat, now: int)
    requires Inv(db)
    ensures Inv(MarkStable(db, dep, gen, nonce, now).db) && Settles(db, MarkStable(db, dep, gen, nonce, now).db)
  {
    if MarkStable(db, dep, gen, nonce, now).db == db {
      SettlesSelf(db);
    } else {
      ClearFailuresKeeps(db, dep, gen, nonce, now);
    }
  }

  lemma RecordFailureKeeps(db: Db, dep: DeploymentId, gen: Option<nat>, nonce: nat, now: int)
    requires Inv(db)
    ensures Inv(RecordFailure(db, dep, gen, nonce, now).db) && Settles(db, RecordFailure(db, dep, gen, nonce, now).db)
  {
    if dep == "" || gen == Some(0) || !Watched(db, dep) || (gen.Some? && db.deployments[dep].activeGeneration != gen.value) {
      SettlesSelf(db);
    } else {
      CountFailureKeeps(db, dep, if gen.Some? then db.deployments[dep].activeGeneration else 0, nonce, now);
    }
  }

  // ---- Leases ---------------------------------------------------------------------------

  /** Delivery rows change only in status, attempts, due time and lease, consistently. */
  ghost predicate Releases(ds: map<DeliveryKey, Delivery>, es: map<DeliveryKey, Delivery>) {
    && es.Keys == ds.Keys
    && forall k :: k in ds ==>
         && es[k].dep == ds[k].dep && es[k].revision == ds[k].revision
         && (es[k].status == Sending <==> es[k].owner.Some?) && (es[k].status == Sending <==> es[k].leaseExpires.Some?)
  }

  lemma ReleasesKeeps(a: Db, b: Db)
    requires Inv(a) && b == a.(deliveries := b.deliveries) && Releases(a.deliveries, b.deliveries)
    ensures Inv(b) && Settles(a, b)
  {
    assert DeliveriesOk(b.events, b.bindings, b.deliveries) by {
      forall k | k in b.deliveries ensures DeliveryOk(b.events, b.bindings, k, b.deliveries[k]) {
        assert DeliveryOk(a.events, a.bindings, k, a.deliveries[k]);
      }
    }
    OutboxOnlyKeeps(a, b);
  }

  lemma LeaseKeeps(db: Db, owner: Owner, expires: int, chosen: set<DeliveryKey>)
    requires Inv(db)
    ensures Inv(Lease(db, owner, expires, chosen)) && Settles(db, Lease(db, owner, expires, chosen))
  {
    LeaseReleases(db, owner, expires, chosen);
    ReleasesKeeps(db, Lease(db, owner, expires, chosen));
  }

  lemma LeaseReleases(db: Db, owner: Owner, expires: int, chosen: set<DeliveryKey>)
    requires DeliveriesOk(db.events, db.bindings, db.deliveries)
    ensures Releases(db.deliveries, Lease(db, owner, expires, chosen).deliveries)
  {
    forall k | k in db.deliveries ensures DeliveryOk(db.events, db.bindings, k, db.deliveries[k]) {}
  }

  lemma RowReleases(db: Db, k: DeliveryKey, d: Delivery)
    requires Inv(db) && k in db.deliveries
    requires d.dep == db.deliveries[k].dep && d.revision == db.deliveries[k].revision
    requires (d.status == Sending <==> d.owner.Some?) && (d.status == Sending <==> d.leaseExpires.Some?)
    ensures var b := db.(deliveries := db.deliveries[k := d]); Inv(b) && Settles(db, b)
  {
    OneReleases(db.events, db.bindings, db.deliveries, k, d);
    ReleasesKeeps(db, db.(deliveries := db.deliveries[k := d]));
  }

  lemma OneReleases(es: map<OutboxId, EventRow>, bs: map<BindingKey, Binding>, ds: map<DeliveryKey, Delivery>,
                    k: DeliveryKey, d: Delivery)
    requires DeliveriesOk(es, bs, ds) && k in ds && d.dep == ds[k].dep && d.revision == ds[k].revision
    requires (d.status == Sending <==> d.owner.Some?) && (d.status == Sending <==> d.leaseExpires.Some?)
    ensures Releases(ds, ds[k := d])
  {
    forall j | j in ds ensures DeliveryOk(es, bs, j, ds[j]) {}
  }

  lemma SettleKeeps(db: Db, k: DeliveryKey, owner: Owner, status: DeliveryStatus, counted: nat, next: Option<int>)
    requires Inv(db) && status != Sending
    ensures var b := Settle(db, k, owner, status, counted, next).db; Inv(b) && Settles(db, b)
  {
    if Holds(db, k, owner) {
      RowReleases(db, k, Settle(db, k, owner, status, counted, next).db.deliveries[k]);
    } else {
      SettlesSelf(db);
    }
  }

  lemma MarkFailedKeeps(db: Db, k: DeliveryKey, owner: Owner, attempts: nat, next: int, maxAttempts: nat)
    requires Inv(db)
    ensures var b := MarkFailed(db, k, owner, attempts, next, maxAttempts).db; Inv(b) && Settles(db, b)
  {
    if maxAttempts < 1 {
      SettlesSelf(db);
    } else if attempts + 1 >= maxAttempts {
      SettleKeeps(db, k, owner, Dead, 1, None);
    } else {
      SettleKeeps(db, k, owner, Pending, 1, Some(next));
    }
  }

  lemma RetryDeadKeeps(db: Db, k: DeliveryKey, now: int)
    requires Inv(db)
    ensures Inv(RetryDead(db, k, now).db) && Settles(db, RetryDead(db, k, now).db)
  {
    SettlesSelf(db);
    if RetryDead(db, k, now).reply.Ok? {
      assert DeliveryOk(db.events, db.bindings, k, db.deliveries[k]);
      RowReleases(db, k, RetryDead(db, k, now).db.deliveries[k]);
    }
  }

  // ---- Retention ------------------------------------------------------------------------

  lemma DeleteEventKeeps(db: Db, rowid: nat, now: int)
    requires Inv(db)
    ensures Inv(DeleteEvent(db, rowid, now)) && Settles(db, DeleteEvent(db, rowid, now))
  {
    var b := DeleteEvent(db, rowid, now);
    assert DeliveriesOk(b.events, b.bindings, b.deliveries) by {
      forall k | k in b.deliveries ensures DeliveryOk(b.events, b.bindings, k, b.deliveries[k]) {
        assert DeliveryOk(db.events, db.bindings, k, db.deliveries[k]);
      }
    }
    assert EventsOk(b.deployments, b.ledger, b.events) && EventKeys(b.events);
    OutboxOnlyKeeps(db, b);
  }

  lemma DeleteReceiptSettles(db: Db, t: TxKey, now: int)
    requires FenceOk(db) && t in db.ledger && Disposable(db, t, now)
    ensures Settles(db, DeleteReceipt(db, t, now))
  {
    var b := DeleteReceipt(db, t, now);
    UnchangedSettles(db.deployments, db.deployments, db.generations);
    SameVersions(db, b);
    SameLedgerSettles(db.deployments, db.generations, db.generations, db.ledger);
    forall k | IsCurrent(b, k) ensures Undisturbed(db, b, k.dep) {
      assert GenerationOk(db.deployments, k, db.generations[k]);
    }
  }

  lemma DeleteReceiptOutbox(db: Db, t: TxKey, now: int)
    requires OutboxOk(db) && t in db.ledger && Disposable(db, t, now)
    ensures OutboxOk(DeleteReceipt(db, t, now))
  {
    forall o | o in db.events ensures EventOk(db.deployments, db.ledger - {t}, db.events[o]) {
      assert EventOk(db.deployments, db.ledger, db.events[o]);
    }
  }

  lemma DeleteReceiptKeeps(db: Db, t: TxKey, now: int)
    requires Inv(db)
    ensures Inv(DeleteReceipt(db, t, now)) && Settles(db, DeleteReceipt(db, t, now))
  {
    SettlesSelf(db);
    if t in db.ledger && Disposable(db, t, now) {
      DeleteReceiptSettles(db, t, now);
      SettlesKeepsFence(db, DeleteReceipt(db, t, now));
      DeleteReceiptOutbox(db, t, now);
    }
  }

  lemma CursorsKeep(db: Db, cursors: map<SweepName, Cursor>)
    requires Inv(db)
    ensures Inv(db.(cursors := cursors)) && Settles(db, db.(cursors := cursors))
  {
    OutboxOnlyKeeps(db, db.(cursors := cursors));
  }
}
