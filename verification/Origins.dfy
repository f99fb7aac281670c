/** Where outbox rows come from: identifiers derived from a frame belong to that frame alone. */
module Origins {
  import opened Schema
  import opened Transactions
  import opened Lifecycle
  import opened HealthRecords
  import opened Retention
  import opened Integrity
  import opened OutboxIntegrity
  import opened Writes
  import opened Fanout

  /** A derived identifier names the frame that inserted the row. */
  ghost predicate Derives(es: Events) {
    forall o :: o in es && o.Derived? ==>
      es[o].kind == Monitor && es[o].dep == o.dep && es[o].gen == o.gen && es[o].seqno == o.seqno
  }

  /** Rows are deleted, or added under random identifiers. */
  ghost predicate Randomly(a: Events, b: Events) {
    forall o :: o in b ==> (o in a && b[o] == a[o]) || o.Random?
  }

  lemma NotifyRandomly(db: Db, dep: DeploymentId, gen: nat, unhealthy: bool, nonce: nat, now: int)
    requires dep in db.health && Notify(db, dep, gen, unhealthy, nonce, now).Ok?
    ensures Randomly(db.events, Notify(db, dep, gen, unhealthy, nonce, now).value.events)
  {
  }

  lemma CountRandomly(db: Db, dep: DeploymentId, gen: nat, nonce: nat, now: int)
    requires Watched(db, dep)
    ensures Randomly(db.events, CountFailure(db, dep, gen, nonce, now).db.events)
  {
    CountFailureCases(db, dep, gen, nonce, now);
    NotifyOrRandomly(db, dep, Counted(db, dep, gen), gen, true, nonce, now);
  }

  lemma NotifyOrRandomly(db: Db, dep: DeploymentId, h: Health, gen: nat, unhealthy: bool, nonce: nat, now: int)
    requires dep in db.health
    ensures Randomly(db.events, NotifyOr(db, dep, h, gen, unhealthy, nonce, now).events)
  {
    if Notify(SetHealth(db, dep, h), dep, gen, unhealthy, nonce, now).Ok? {
      NotifyRandomly(SetHealth(db, dep, h), dep, gen, unhealthy, nonce, now);
    }
  }

  lemma ClearRandomly(db: Db, dep: DeploymentId, gen: nat, nonce: nat, now: int)
    requires Watched(db, dep)
    ensures Randomly(db.events, ClearFailures(db, dep, gen, nonce, now).db.events)
  {
    NotifyOrRandomly(db, dep, db.health[dep].(gen := gen, status := Healthy, failures := 0), gen, false, nonce, now);
  }

  lemma RunRandomly(db: Db, dep: DeploymentId, gen: nat, status: RunStatus, nonce: nat, now: int)
    ensures Randomly(db.events, RecordRun(db, dep, gen, status, nonce, now).db.events)
  {
    if Watched(db, dep) {
      CountRandomly(db, dep, gen, nonce, now);
      ClearRandomly(db, dep, gen, nonce, now);
    }
  }

  lemma FailureRandomly(db: Db, dep: DeploymentId, gen: Option<nat>, nonce: nat, now: int)
    ensures Randomly(db.events, RecordFailure(db, dep, gen, nonce, now).db.events)
  {
    if Watched(db, dep) {
      CountRandomly(db, dep, if gen.Some? then db.deployments[dep].activeGeneration else 0, nonce, now);
    }
  }

  lemma StableRandomly(db: Db, dep: DeploymentId, gen: nat, nonce: nat, now: int)
    ensures Randomly(db.events, MarkStable(db, dep, gen, nonce, now).db.events)
  {
    if Watched(db, dep) {
      ClearRandomly(db, dep, gen, nonce, now);
    }
  }

  lemma {:induction false} DeleteAllRandomly(db: Db, name: SweepName, p: Page, taken: nat, now: int)
    requires taken <= |p.ids|
    ensures Randomly(db.events, DeleteAll(db, name, p, taken, now).events)
  {
    if taken > 0 {
      DeleteAllRandomly(db, name, p, taken - 1, now);
    }
  }

  lemma WatchingRandomly(db: Db, w: Write)
    requires Watching(w)
    ensures Randomly(db.events, Perform(db, w).events)
  {
    match w
    case RunRecorded(dep, gen, status, nonce, now) => RunRandomly(db, dep, gen, status, nonce, now);
    case StableMarked(dep, gen, nonce, now) => StableRandomly(db, dep, gen, nonce, now);
    case FailureRecorded(dep, gen, nonce, now) => FailureRandomly(db, dep, gen, nonce, now);
  }

  lemma DeployRandomly(db: Db, newId: DeploymentId, i: DeployInput, now: int)
    ensures Randomly(db.events, Deploy(db, newId, i, now).db.events)
  {
  }

  lemma PurgeRandomly(db: Db, id: DeploymentId, force: bool)
    ensures Randomly(db.events, Purge(db, id, force).db.events)
  {
  }

  lemma ExternalRandomly(db: Db, w: Write)
    requires Inv(db) && External(w)
    ensures Randomly(db.events, Perform(db, w).events)
  {
    hide Inv;
    if w.DeployOne? {
      DeployRandomly(db, w.newId, w.input, w.now);
    } else if w.PurgeOne? {
      PurgeRandomly(db, w.dep, w.force);
    } else if Fencing(w) {
      FencingWrite(db, w);
    } else if Marking(w) {
      MarkingWrite(db, w);
    } else if Watching(w) {
      WatchingRandomly(db, w);
    } else if Delivering(w) {
      DeliveringFrame(db, w);
    } else if w.taken <= |w.page.ids| {
      DeleteAllRandomly(db, w.name, w.page, w.taken, w.now);
    }
  }

  lemma RandomlyDerives(a: Events, b: Events)
    requires Derives(a) && Randomly(a, b)
    ensures Derives(b)
  {
  }

  /** Every event of the frame is identified by the frame and its place in it. */
  ghost predicate Numbered(f: Frame) {
    forall i :: 0 <= i < |f.events| ==> f.events[i].outboxId == Derived(f.dep, f.gen, f.seqno, i)
  }

  lemma FrameDerives(db: Db, f: Frame, now: int)
    requires Rooted(db.events, db.deliveries) && Derives(db.events) && Numbered(f) && TakesEffect(db, f, now)
    ensures Derives(Apply(db, f, now).db.events)
  {
    FrameRecords(Advance(db, f), f, f.events, now);
    var b := Apply(db, f, now).db;
    forall o | o in b.events && o.Derived?
      ensures b.events[o].kind == Monitor && b.events[o].dep == o.dep && b.events[o].gen == o.gen && b.events[o].seqno == o.seqno
    {
      if o !in db.events {
        var i :| 0 <= i < |f.events| && f.events[i].outboxId == o && Recorded(b.events, b.deliveries, f, f.events[i], now);
      }
    }
  }

  /** The identifiers of an unapplied frame are unused. */
  lemma UnappliedIsUnused(db: Db, f: Frame, i: nat)
    requires OutboxOk(db) && Derives(db.events) && Numbered(f) && f.Key() !in db.ledger && i < |f.events|
    ensures f.events[i].outboxId !in db.events
  {
    if f.events[i].outboxId in db.events {
      DerivedLedgered(db, f.events[i].outboxId);
    }
  }

  lemma DerivedLedgered(db: Db, o: OutboxId)
    requires OutboxOk(db) && Derives(db.events) && o in db.events && o.Derived?
    ensures TxKey(o.dep, o.gen, o.seqno) in db.ledger
  {
    assert EventOk(db.deployments, db.ledger, db.events[o]);
  }
}
