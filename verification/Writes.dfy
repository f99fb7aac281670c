/** Every write transaction of the store, as one alphabet, and what all of them keep. */
module Writes {
  import opened Schema
  import opened Transactions
  import opened Lifecycle
  import opened HealthRecords
  import opened Outbox
  import opened Retention
  import opened Integrity
  import opened OutboxIntegrity

  datatype Write =
    | ApplyFrame(frame: Frame, now: int)
    | OpenGeneration(snapshot: Snapshot, fingerprint: string, token: Token, now: int)
    | RecoverDaemon(now: int)
    | GenerationReady(dep: DeploymentId, gen: nat, now: int)
    | GenerationStopped(dep: DeploymentId, gen: nat, failed: bool, now: int)
    | DeployOne(newId: DeploymentId, input: DeployInput, now: int)
    | PauseOne(dep: DeploymentId, now: int)
    | ResumeOne(dep: DeploymentId, expires: Option<int>, now: int)
    | ExpireDue(now: int)
    | ArchiveOne(dep: DeploymentId, now: int)
    | PurgeOne(dep: DeploymentId, force: bool)
    | EditState(dep: DeploymentId, base: nat, state: Json, now: int)
    | ClearSources(dep: DeploymentId, now: int)
    | RunRecorded(dep: DeploymentId, gen: nat, status: RunStatus, nonce: nat, now: int)
    | StableMarked(dep: DeploymentId, gen: nat, nonce: nat, now: int)
    | FailureRecorded(dep: DeploymentId, failedGen: Option<nat>, nonce: nat, now: int)
    | ClaimRows(owner: Owner, now: int, leaseUntil: int, chosen: set<DeliveryKey>)
    | EndDelivered(key: DeliveryKey, owner: Owner)
    | EndDeferred(key: DeliveryKey, owner: Owner, next: int)
    | EndFailed(key: DeliveryKey, owner: Owner, attempts: nat, next: int, maxAttempts: nat)
    | RetryOne(key: DeliveryKey, now: int)
    | PruneSlice(name: SweepName, page: Page, taken: nat, now: int)

  /** Frames and activations give workers something; every other write only settles. */
  predicate External(w: Write) {
    !w.ApplyFrame? && !w.OpenGeneration?
  }

  function Perform(db: Db, w: Write): Db {
    match w
    case ApplyFrame(f, now) => Apply(db, f, now).db
    case OpenGeneration(s, fingerprint, token, now) => Activate(db, s, fingerprint, token, now).db
    case RecoverDaemon(now) => Recover(db, now)
    case GenerationReady(dep, gen, now) => MarkReady(db, dep, gen, now).db
    case GenerationStopped(dep, gen, failed, now) => MarkStopped(db, dep, gen, failed, now).db
    case DeployOne(newId, input, now) => Deploy(db, newId, input, now).db
    case PauseOne(dep, now) => Pause(db, dep, now).db
    case ResumeOne(dep, expires, now) => Resume(db, dep, expires, now).db
    case ExpireDue(now) => Expire(db, now).db
    case ArchiveOne(dep, now) => Archive(db, dep, now).db
    case PurgeOne(dep, force) => Purge(db, dep, force).db
    case EditState(dep, base, state, now) => ReplaceState(db, dep, base, state, now).db
    case ClearSources(dep, now) => ClearCheckpoints(db, dep, now).db
    case RunRecorded(dep, gen, status, nonce, now) => RecordRun(db, dep, gen, status, nonce, now).db
    case StableMarked(dep, gen, nonce, now) => MarkStable(db, dep, gen, nonce, now).db
    case FailureRecorded(dep, gen, nonce, now) => RecordFailure(db, dep, gen, nonce, now).db
    case ClaimRows(owner, _, expires, chosen) => Lease(db, owner, expires, chosen)
    case EndDelivered(key, owner) => MarkDelivered(db, key, owner).db
    case EndDeferred(key, owner, next) => Defer(db, key, owner, next).db
    case EndFailed(key, owner, attempts, next, maxAttempts) => MarkFailed(db, key, owner, attempts, next, maxAttempts).db
    case RetryOne(key, now) => RetryDead(db, key, now).db
    case PruneSlice(name, page, taken, now) => if taken <= |page.ids| then Prune(db, name, page, taken, now).db else db
  }

  // ---- Composition ----------------------------------------------------------------------

  lemma SettlesRowsTransitive(ds: Deployments, es: Deployments, gs: Generations, hs: Generations, js: Generations)
    requires SettlesRows(ds, gs, hs) && SettlesRows(es, hs, js) && es.Keys <= ds.Keys
    ensures SettlesRows(es, gs, js)
  {
    forall id | id in es ensures id in ds {
      assert id in es.Keys;
    }
  }

  lemma VersionsTransitive(a: Db, b: Db, c: Db)
    requires SettlesVersions(a, b) && SettlesVersions(b, c) && c.deployments.Keys <= b.deployments.Keys
    ensures SettlesVersions(a, c)
  {
    forall id | id in a.deployments && id in c.deployments ensures Versioned(a, c, id) {
      assert id in c.deployments.Keys;
      assert Versioned(a, b, id) && Versioned(b, c, id);
    }
  }

  lemma SettlesTransitive(a: Db, b: Db, c: Db)
    requires Settles(a, b) && Settles(b, c) && c.deployments.Keys <= b.deployments.Keys
    ensures Settles(a, c)
  {
    VersionsTransitive(a, b, c);
    SettlesRowsTransitive(b.deployments, c.deployments, a.generations, b.generations, c.generations);
    SettlesLedgerTransitive(c.deployments, a.ledger, b.ledger, c.ledger, b.generations, c.generations);
    forall k | IsCurrent(c, k) ensures Undisturbed(a, c, k.dep) {
      assert IsCurrent(b, k);
    }
  }

  lemma SettlesLedgerTransitive(ds: Deployments, l: Ledger, m: Ledger, n: Ledger, hs: Generations, js: Generations)
    requires SettlesLedger(hs, l, m) && SettlesLedger(js, m, n) && SettlesRows(ds, hs, js)
    ensures SettlesLedger(js, l, n)
  {
    forall t | t in l && GenKey(t.dep, t.gen) in js && js[GenKey(t.dep, t.gen)].status == Current ensures t in n {
      assert GenKey(t.dep, t.gen) in hs && hs[GenKey(t.dep, t.gen)].status == Current;
    }
  }

  lemma {:induction false} DeleteAllKeeps(db: Db, name: SweepName, p: Page, taken: nat, now: int)
    requires Inv(db) && taken <= |p.ids|
    ensures var b := DeleteAll(db, name, p, taken, now);
      Inv(b) && Settles(db, b) && b.deployments == db.deployments
  {
    if taken == 0 {
      SettlesSelf(db);
    } else {
      var mid := DeleteAll(db, name, p, taken - 1, now);
      DeleteAllKeeps(db, name, p, taken - 1, now);
      DeleteCandidateKeeps(mid, name, p, p.ids[taken - 1], now);
      SettlesTransitive(db, mid, DeleteAll(db, name, p, taken, now));
    }
  }

  lemma DeleteCandidateKeeps(db: Db, name: SweepName, p: Page, c: Candidate, now: int)
    requires Inv(db)
    ensures var b := DeleteCandidate(db, name, p, c, now);
      Inv(b) && Settles(db, b) && b.deployments == db.deployments
  {
    if !c.eligible {
      SettlesSelf(db);
    } else if name == OutboxSweep {
      DeleteEventKeeps(db, c.id, now);
    } else {
      DeleteReceiptKeeps(db, TxKey(p.dep, p.gen, c.id), now);
    }
  }

  lemma PruneKeeps(db: Db, name: SweepName, p: Page, taken: nat, now: int)
    requires Inv(db) && taken <= |p.ids|
    ensures Inv(Prune(db, name, p, taken, now).db) && Settles(db, Prune(db, name, p, taken, now).db)
    ensures Prune(db, name, p, taken, now).db.deployments == db.deployments
  {
    if Resting(p.before, now) || CursorOf(db, name) != p.before {
      SettlesSelf(db);
    } else {
      var swept := DeleteAll(db, name, p, taken, now);
      DeleteAllKeeps(db, name, p, taken, now);
      CursorsKeep(swept, swept.cursors[name := Progress(name, p, taken, now)]);
      SettlesTransitive(db, swept, Prune(db, name, p, taken, now).db);
    }
  }

  lemma DeploySettles(db: Db, newId: DeploymentId, i: DeployInput, now: int)
    requires Inv(db) && newId !in db.deployments
    ensures Settles(db, Deploy(db, newId, i, now).db)
  {
    if Deploy(db, newId, i, now).reply.Ok? {
      DeployFences(db, newId, i, now);
      SettlesTransitive(db, DeployBase(db, newId, i), Deploy(db, newId, i, now).db);
    } else {
      SettlesSelf(db);
    }
  }

  // ---- Every write ----------------------------------------------------------------------

  predicate Fencing(w: Write) {
    w.RecoverDaemon? || w.PauseOne? || w.ResumeOne? || w.ExpireDue? || w.ArchiveOne? || w.EditState? || w.ClearSources?
  }

  lemma StatusWrite(db: Db, w: Write)
    requires Inv(db) && (w.PauseOne? || w.ResumeOne? || w.ArchiveOne?)
    ensures Perform(db, w) == db || LifecycleStep(db, Perform(db, w))
  {
    hide LifecycleStep;
    match w
    case PauseOne(dep, now) => if Pause(db, dep, now).reply.Ok? { SetStatusMoves(db, dep, Active, Inactive, None, now); }
    case ResumeOne(dep, expires, now) =>
      if Resume(db, dep, expires, now).reply.Ok? { SetStatusMoves(db, dep, Inactive, Active, expires, now); }
    case ArchiveOne(dep, now) => if Archive(db, dep, now).reply.Ok? { ArchiveMoves(db, dep, now); }
  }

  lemma EditWrite(db: Db, w: Write)
    requires Inv(db) && (w.EditState? || w.ClearSources?)
    ensures Perform(db, w) == db || LifecycleStep(db, Perform(db, w))
  {
    hide LifecycleStep;
    match w
    case EditState(dep, base, state, now) =>
      if ReplaceState(db, dep, base, state, now).reply.Ok? { ReplaceStateMoves(db, dep, base, state, now); }
    case ClearSources(dep, now) => if ClearCheckpoints(db, dep, now).reply.Ok? { ClearCheckpointsMoves(db, dep, now); }
  }

  lemma FencingWrite(db: Db, w: Write)
    requires Inv(db) && Fencing(w)
    ensures Perform(db, w) == db || LifecycleStep(db, Perform(db, w))
  {
    hide LifecycleStep;
    if w.RecoverDaemon? {
      RecoverMoves(db, w.now);
    } else if w.ExpireDue? {
      ExpireMoves(db, w.now);
    } else if w.EditState? || w.ClearSources? {
      EditWrite(db, w);
    } else {
      StatusWrite(db, w);
    }
  }

  predicate Marking(w: Write) {
    w.GenerationReady? || w.GenerationStopped?
  }

  lemma MarkingWrite(db: Db, w: Write)
    requires Inv(db) && Marking(w)
    ensures Perform(db, w) == db || LifecycleStep(db, Perform(db, w))
  {
    hide FenceOk, NamesOk, OwnersOk, OutboxOk, BindingsOk, HealthOk, LifecycleStep;
    match w
    case GenerationReady(dep, gen, now) => if MarkReady(db, dep, gen, now).reply.Ok? { MarkReadyMoves(db, dep, gen, now); }
    case GenerationStopped(dep, gen, failed, now) =>
      if MarkStopped(db, dep, gen, failed, now).reply.Ok? { MarkStoppedMoves(db, dep, gen, failed, now); }
  }

  predicate Watching(w: Write) {
    w.RunRecorded? || w.StableMarked? || w.FailureRecorded?
  }

  lemma WatchingWrite(db: Db, w: Write)
    requires Inv(db) && Watching(w)
    ensures Inv(Perform(db, w)) && Settles(db, Perform(db, w))
  {
    match w
    case RunRecorded(dep, gen, status, nonce, now) => RecordRunKeeps(db, dep, gen, status, nonce, now);
    case StableMarked(dep, gen, nonce, now) => MarkStableKeeps(db, dep, gen, nonce, now);
    case FailureRecorded(dep, gen, nonce, now) => RecordFailureKeeps(db, dep, gen, nonce, now);
  }

  predicate Delivering(w: Write) {
    w.ClaimRows? || w.EndDelivered? || w.EndDeferred? || w.EndFailed? || w.RetryOne?
  }

  lemma DeliveredKeeps(db: Db, key: DeliveryKey, owner: Owner)
    requires Inv(db)
    ensures Inv(MarkDelivered(db, key, owner).db) && Settles(db, MarkDelivered(db, key, owner).db)
  {
    SettleKeeps(db, key, owner, Delivered, 0, None);
  }

  lemma DeferredKeeps(db: Db, key: DeliveryKey, owner: Owner, next: int)
    requires Inv(db)
    ensures Inv(Defer(db, key, owner, next).db) && Settles(db, Defer(db, key, owner, next).db)
  {
    SettleKeeps(db, key, owner, Pending, 0, Some(next));
  }

  lemma DeliveringWrite(db: Db, w: Write)
    requires Inv(db) && Delivering(w)
    ensures Inv(Perform(db, w)) && Settles(db, Perform(db, w))
  {
    hide Inv, Settles;
    match w
    case ClaimRows(owner, _, until, chosen) => LeaseKeeps(db, owner, until, chosen);
    case EndDelivered(key, owner) => DeliveredKeeps(db, key, owner);
    case EndDeferred(key, owner, next) => DeferredKeeps(db, key, owner, next);
    case EndFailed(key, owner, attempts, next, maxAttempts) => MarkFailedKeeps(db, key, owner, attempts, next, maxAttempts);
    case RetryOne(key, now) => RetryDeadKeeps(db, key, now);
  }

  /** Only health rows and the outbox may differ. */
  ghost predicate NotesOnly(a: Db, b: Db) {
    b == a.(health := b.health, events := b.events, deliveries := b.deliveries)
  }

  lemma NotifyFrame(db: Db, dep: DeploymentId, gen: nat, unhealthy: bool, nonce: nat, now: int)
    requires dep in db.health
    ensures var r := Notify(db, dep, gen, unhealthy, nonce, now); r.Ok? ==> NotesOnly(db, r.value)
  {
  }

  lemma FailureCountFrame(db: Db, dep: DeploymentId, gen: nat, nonce: nat, now: int)
    requires Watched(db, dep)
    ensures NotesOnly(db, CountFailure(db, dep, gen, nonce, now).db)
  {
    var h := db.health[dep];
    var threshold := db.deployments[dep].threshold;
    NotifyFrame(SetHealth(db, dep, h.(gen := gen, status := Degraded(h.failures + 1, threshold), failures := h.failures + 1)),
                dep, gen, true, nonce, now);
  }

  lemma ClearingFrame(db: Db, dep: DeploymentId, gen: nat, nonce: nat, now: int)
    requires Watched(db, dep)
    ensures NotesOnly(db, ClearFailures(db, dep, gen, nonce, now).db)
  {
    NotifyFrame(SetHealth(db, dep, db.health[dep].(gen := gen, status := Healthy, failures := 0)), dep, gen, false, nonce, now);
  }

  lemma RunFrame(db: Db, dep: DeploymentId, gen: nat, status: RunStatus, nonce: nat, now: int)
    ensures NotesOnly(db, RecordRun(db, dep, gen, status, nonce, now).db)
  {
    if Watched(db, dep) {
      FailureCountFrame(db, dep, gen, nonce, now);
      ClearingFrame(db, dep, gen, nonce, now);
      var b := RecordRun(db, dep, gen, status, nonce, now).db;
      assert b == db.(health := b.health) || b == CountFailure(db, dep, gen, nonce, now).db
        || b == ClearFailures(db, dep, gen, nonce, now).db;
    }
  }

  lemma StableFrame(db: Db, dep: DeploymentId, gen: nat, nonce: nat, now: int)
    ensures NotesOnly(db, MarkStable(db, dep, gen, nonce, now).db)
  {
    if Watched(db, dep) {
      ClearingFrame(db, dep, gen, nonce, now);
    }
  }

  lemma FailureFrame(db: Db, dep: DeploymentId, gen: Option<nat>, nonce: nat, now: int)
    ensures NotesOnly(db, RecordFailure(db, dep, gen, nonce, now).db)
  {
    if Watched(db, dep) {
      FailureCountFrame(db, dep, if gen.Some? then db.deployments[dep].activeGeneration else 0, nonce, now);
    }
  }

  lemma WatchingFrame(db: Db, w: Write)
    requires Watching(w)
    ensures NotesOnly(db, Perform(db, w))
  {
    match w
    case RunRecorded(dep, gen, status, nonce, now) => RunFrame(db, dep, gen, status, nonce, now);
    case StableMarked(dep, gen, nonce, now) => StableFrame(db, dep, gen, nonce, now);
    case FailureRecorded(dep, gen, nonce, now) => FailureFrame(db, dep, gen, nonce, now);
  }

  /** Only generation and health rows may differ. */
  ghost predicate Marked(a: Db, b: Db) {
    b == a.(generations := b.generations, health := b.health)
  }

  lemma ReadyFrame(db: Db, dep: DeploymentId, gen: nat, now: int)
    ensures Marked(db, MarkReady(db, dep, gen, now).db)
  {
    var b := MarkReady(db, dep, gen, now).db;
    assert b == db || b == db.(generations := b.generations, health := b.health);
  }

  lemma StoppedFrame(db: Db, dep: DeploymentId, gen: nat, failed: bool, now: int)
    ensures Marked(db, MarkStopped(db, dep, gen, failed, now).db)
  {
    var b := MarkStopped(db, dep, gen, failed, now).db;
    assert b == db || b == db.(generations := b.generations, health := b.health);
  }

  lemma MarkingFrame(db: Db, w: Write)
    requires Marking(w)
    ensures Marked(db, Perform(db, w))
  {
    match w
    case GenerationReady(dep, gen, now) => ReadyFrame(db, dep, gen, now);
    case GenerationStopped(dep, gen, failed, now) => StoppedFrame(db, dep, gen, failed, now);
  }

  lemma SettleFrame(db: Db, key: DeliveryKey, owner: Owner, status: DeliveryStatus, counted: nat, next: Option<int>)
    ensures var b := Settle(db, key, owner, status, counted, next).db; b == db.(deliveries := b.deliveries)
  {
  }

  lemma LeaseFrame(db: Db, owner: Owner, until: int, chosen: set<DeliveryKey>)
    ensures var b := Lease(db, owner, until, chosen); b == db.(deliveries := b.deliveries)
  {
  }

  lemma RetryFrame(db: Db, key: DeliveryKey, now: int)
    ensures var b := RetryDead(db, key, now).db; b == db.(deliveries := b.deliveries)
  {
  }

  lemma DeliveringFrame(db: Db, w: Write)
    requires Delivering(w)
    ensures Perform(db, w) == db.(deliveries := Perform(db, w).deliveries)
  {
    hide Settle, Lease, RetryDead, Holds;
    match w
    case ClaimRows(owner, _, until, chosen) => LeaseFrame(db, owner, until, chosen);
    case EndDelivered(key, owner) => SettleFrame(db, key, owner, Delivered, 0, None);
    case EndDeferred(key, owner, next) => SettleFrame(db, key, owner, Pending, 0, Some(next));
    case EndFailed(key, owner, attempts, next, maxAttempts) =>
      SettleFrame(db, key, owner, Dead, 1, None);
      SettleFrame(db, key, owner, Pending, 1, Some(next));
    case RetryOne(key, now) => RetryFrame(db, key, now);
  }

  /** Only a first deploy brings in a deployment identifier. */
  function Brings(w: Write): set<DeploymentId> {
    if w.DeployOne? then {w.newId} else {}
  }

  /** Every write but a frame and an activation keeps the invariant and only settles. */
  lemma ExternalSettles(db: Db, w: Write)
    requires Inv(db) && External(w)
    requires w.DeployOne? ==> w.newId !in db.deployments
    ensures Inv(Perform(db, w)) && Settles(db, Perform(db, w))
    ensures Perform(db, w).deployments.Keys <= db.deployments.Keys + Brings(w)
  {
    hide Inv, Settles, LifecycleStep, Perform, SettlesVersions, Watched;
    if w.DeployOne? || w.PurgeOne? {
      DeploymentWrite(db, w);
    } else if Fencing(w) {
      FencingWrite(db, w);
      StepOrStill(db, Perform(db, w));
    } else if Marking(w) {
      MarkingWrite(db, w);
      StepOrStill(db, Perform(db, w));
    } else if Watching(w) {
      WatchingWrite(db, w);
      WatchingFrame(db, w);
    } else if Delivering(w) {
      DeliveringWrite(db, w);
      DeliveringFrame(db, w);
    } else {
      PruneWrite(db, w);
    }
  }

  lemma DeploymentWrite(db: Db, w: Write)
    requires Inv(db) && (w.DeployOne? || w.PurgeOne?)
    requires w.DeployOne? ==> w.newId !in db.deployments
    ensures Inv(Perform(db, w)) && Settles(db, Perform(db, w))
    ensures Perform(db, w).deployments.Keys <= db.deployments.Keys + Brings(w)
  {
    hide Settles, Deploy;
    if w.DeployOne? {
      DeployKeeps(db, w.newId, w.input, w.now);
      DeploySettles(db, w.newId, w.input, w.now);
      DeployIds(db, w.newId, w.input, w.now);
    } else {
      PurgeKeeps(db, w.dep, w.force);
    }
  }

  lemma DeployIds(db: Db, newId: DeploymentId, i: DeployInput, now: int)
    requires NamesOk(db.deployments, db.names)
    ensures Deploy(db, newId, i, now).db.deployments.Keys <= db.deployments.Keys + {newId}
  {
  }

  lemma PruneWrite(db: Db, w: Write)
    requires Inv(db) && w.PruneSlice?
    ensures Inv(Perform(db, w)) && Settles(db, Perform(db, w)) && Perform(db, w).deployments == db.deployments
  {
    if w.taken <= |w.page.ids| {
      PruneKeeps(db, w.name, w.page, w.taken, w.now);
    } else {
      SettlesSelf(db);
    }
  }

  lemma StepOrStill(a: Db, b: Db)
    requires Inv(a) && (b == a || LifecycleStep(a, b))
    ensures Inv(b) && Settles(a, b) && b.deployments.Keys == a.deployments.Keys
  {
    if b == a {
      SettlesSelf(a);
    } else {
      LifecycleKeeps(a, b);
    }
  }

  /** Every write keeps the invariant of the tables. */
  lemma PerformKeeps(db: Db, w: Write)
    requires Inv(db)
    requires w.DeployOne? ==> w.newId !in db.deployments
    ensures Inv(Perform(db, w))
  {
    if w.ApplyFrame? {
      ApplyKeeps(db, w.frame, w.now);
    } else if w.OpenGeneration? {
      ActivateKeeps(db, w.snapshot, w.fingerprint, w.token, w.now);
    } else {
      ExternalSettles(db, w);
    }
  }
}
