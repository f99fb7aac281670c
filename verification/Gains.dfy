/** What a caller of the store can rely on after each call, apart from the statements that bring it about. */
module Gains {
  import opened Schema
  import opened Transactions
  import opened Lifecycle
  import opened HealthRecords
  import opened Outbox
  import opened Retention
  import opened Integrity
  import opened Writes
  import opened History

  // ---- Which function a write is ---------------------------------------------------------------------------

  lemma RecoverPerforms(db: Db, now: int)
    ensures Perform(db, RecoverDaemon(now)) == Recover(db, now)
  {
  }

  lemma StoppedPerforms(db: Db, dep: DeploymentId, gen: nat, failed: bool, now: int)
    ensures Perform(db, GenerationStopped(dep, gen, failed, now)) == MarkStopped(db, dep, gen, failed, now).db
  {
  }

  lemma PausePerforms(db: Db, id: DeploymentId, now: int)
    ensures Perform(db, PauseOne(id, now)) == Pause(db, id, now).db
  {
  }

  lemma ResumePerforms(db: Db, id: DeploymentId, expires: Option<int>, now: int)
    ensures Perform(db, ResumeOne(id, expires, now)) == Resume(db, id, expires, now).db
  {
  }

  lemma ArchivePerforms(db: Db, id: DeploymentId, now: int)
    ensures Perform(db, ArchiveOne(id, now)) == Archive(db, id, now).db
  {
  }

  lemma PurgePerforms(db: Db, id: DeploymentId, force: bool)
    ensures Perform(db, PurgeOne(id, force)) == Purge(db, id, force).db
  {
  }

  lemma EditPerforms(db: Db, id: DeploymentId, base: nat, state: Json, now: int)
    ensures Perform(db, EditState(id, base, state, now)) == ReplaceState(db, id, base, state, now).db
  {
  }

  lemma ClearPerforms(db: Db, id: DeploymentId, now: int)
    ensures Perform(db, ClearSources(id, now)) == ClearCheckpoints(db, id, now).db
  {
  }

  lemma RunPerforms(db: Db, dep: DeploymentId, gen: nat, status: RunStatus, nonce: nat, now: int)
    ensures Perform(db, RunRecorded(dep, gen, status, nonce, now)) == RecordRun(db, dep, gen, status, nonce, now).db
  {
  }

  lemma StablePerforms(db: Db, dep: DeploymentId, gen: nat, nonce: nat, now: int)
    ensures Perform(db, StableMarked(dep, gen, nonce, now)) == MarkStable(db, dep, gen, nonce, now).db
  {
  }

  lemma FailurePerforms(db: Db, dep: DeploymentId, gen: Option<nat>, nonce: nat, now: int)
    ensures Perform(db, FailureRecorded(dep, gen, nonce, now)) == RecordFailure(db, dep, gen, nonce, now).db
  {
  }

  lemma RetryPerforms(db: Db, k: DeliveryKey, now: int)
    ensures Perform(db, RetryOne(k, now)) == RetryDead(db, k, now).db
  {
  }

  lemma OpenPerforms(db: Db, s: Snapshot, fingerprint: string, token: Token, now: int)
    ensures Perform(db, OpenGeneration(s, fingerprint, token, now)) == Activate(db, s, fingerprint, token, now).db
  {
  }

  lemma DeployPerforms(db: Db, newId: DeploymentId, i: DeployInput, now: int)
    ensures Perform(db, DeployOne(newId, i, now)) == Deploy(db, newId, i, now).db
  {
  }

  lemma ExpirePerforms(db: Db, now: int)
    ensures Perform(db, ExpireDue(now)) == Expire(db, now).db
  {
  }

  lemma ApplyPerforms(db: Db, f: Frame, now: int)
    ensures Perform(db, ApplyFrame(f, now)) == Apply(db, f, now).db
  {
  }

  lemma ClaimPerforms(db: Db, owner: Owner, now: int, expires: int, chosen: set<DeliveryKey>)
    ensures Perform(db, ClaimRows(owner, now, expires, chosen)) == Lease(db, owner, expires, chosen)
  {
  }

  lemma PrunePerforms(db: Db, name: SweepName, p: Page, taken: nat, now: int)
    requires taken <= |p.ids|
    ensures Perform(db, PruneSlice(name, p, taken, now)) == Prune(db, name, p, taken, now).db
  {
  }

  // ---- Fences -----------------------------------------------------------------------------------------

  /** No generation of the deployment is current, and no frame of it can be applied. */
  ghost predicate FencedOut(db: Db, dep: DeploymentId) {
    && (forall k :: IsCurrent(db, k) ==> k.dep != dep)
    && forall f: Frame :: f.dep == dep ==> Refusal(db, f) == Some(Error.Fenced)
  }

  lemma NoneIsFenced(db: Db, dep: DeploymentId)
    requires forall k :: IsCurrent(db, k) ==> k.dep != dep
    ensures FencedOut(db, dep)
  {
  }

  lemma InactiveIsFenced(db: Db, dep: DeploymentId)
    requires GenerationsOk(db.deployments, db.generations) && (dep in db.deployments ==> db.deployments[dep].status != Active)
    ensures FencedOut(db, dep)
  {
    forall k | IsCurrent(db, k) ensures k.dep != dep {
      assert GenerationOk(db.deployments, k, db.generations[k]);
    }
  }

  /** A worker's state: what its next frame builds on. */
  ghost predicate SameSources(a: Db, b: Db, dep: DeploymentId) {
    && dep in a.deployments && dep in b.deployments
    && b.deployments[dep].state == a.deployments[dep].state && b.deployments[dep].revision == a.deployments[dep].revision
    && CheckpointsOf(b, dep) == CheckpointsOf(a, dep)
  }

  /** Generations and checkpoints of every other deployment are as they were. */
  ghost predicate OthersKept(a: Db, b: Db, dep: DeploymentId) {
    && (forall k: GenKey :: k.dep != dep ==>
          (k in b.generations <==> k in a.generations) && (k in a.generations ==> b.generations[k] == a.generations[k]))
    && (forall k: CheckpointKey :: k.dep != dep ==>
          (k in b.checkpoints <==> k in a.checkpoints) && (k in a.checkpoints ==> b.checkpoints[k] == a.checkpoints[k]))
  }

  /** Nothing of the other deployments changed, and no receipt or delivery of any. */
  ghost predicate OneChanged(a: Db, b: Db, dep: DeploymentId) {
    && dep in b.deployments && b.deployments == a.deployments[dep := b.deployments[dep]]
    && dep in b.health && b.health == a.health[dep := b.health[dep]]
    && b == a.(deployments := b.deployments, generations := b.generations, health := b.health, checkpoints := b.checkpoints)
    && OthersKept(a, b, dep)
  }

  /** Row by row, what a fence does: the current generations of the deployment are retired, and no other row moves. */
  ghost predicate Retires(a: Db, b: Db, dep: DeploymentId, now: int) {
    && b.generations.Keys == a.generations.Keys
    && forall k :: k in a.generations ==>
         b.generations[k] == if k.dep == dep && a.generations[k].status == Current
                             then a.generations[k].(status := Retired, retiredAt := Some(now)) else a.generations[k]
  }

  /** The health row follows the generation and its status; what it counts stays. */
  ghost predicate FollowsHealth(a: Db, b: Db, dep: DeploymentId, gen: nat, status: HealthStatus) {
    && dep in b.health
    && b.health[dep] == if dep in a.health then Health(gen, status, a.health[dep].failures, a.health[dep].notified)
                        else Health(gen, status, 0, false)
  }

  lemma RetireAllRetires(a: Db, b: Db, dep: DeploymentId, now: int)
    requires b.generations == RetireAll(a.generations, {dep}, now)
    ensures Retires(a, b, dep, now)
  {
    assert b.generations.Keys == a.generations.Keys;
  }

  lemma NoneRetires(a: Db, b: Db, dep: DeploymentId, now: int)
    requires b.generations == a.generations && forall k :: IsCurrent(a, k) ==> k.dep != dep
    ensures Retires(a, b, dep, now)
  {
  }

  lemma RetiredOthers(a: Db, b: Db, dep: DeploymentId, now: int)
    requires b.generations == a.generations || b.generations == RetireAll(a.generations, {dep}, now)
    requires b.checkpoints == a.checkpoints
    ensures OthersKept(a, b, dep) && CheckpointsOf(b, dep) == CheckpointsOf(a, dep)
  {
  }

  lemma RetiredFence(a: Db, b: Db, dep: DeploymentId, now: int)
    requires b.generations == RetireAll(a.generations, {dep}, now)
    ensures FencedOut(b, dep)
  {
    NoneIsFenced(b, dep);
  }

  // ---- Ledger and fence ---------------------------------------------------------------------------------

  /** An answer is the ACK of the frame that took effect under this key; a miss means none did, or its generation is
      fenced and the receipt was pruned. */
  lemma LookupMeans(s: System, f: Frame)
    requires SystemOk(s)
    ensures Lookup(s.db, f).None? ==> f.Key() !in s.applied || !IsCurrent(s.db, GenKey(f.dep, f.gen))
    ensures Lookup(s.db, f).Some? ==>
      && f.Key() in s.applied
      && Lookup(s.db, f).value == if s.applied[f.Key()].hash == f.hash then Ok(AckFor(s.applied[f.Key()])) else Err(PayloadConflict)
  {
  }

  /** The frame is the next one of the current generation, sent by its worker and built on the durable revision. */
  ghost predicate Admissible(db: Db, f: Frame) {
    && IsCurrent(db, GenKey(f.dep, f.gen)) && f.dep in db.deployments && db.generations[GenKey(f.dep, f.gen)].token == f.token
    && f.seqno == db.generations[GenKey(f.dep, f.gen)].lastSeq + 1 && f.base == db.deployments[f.dep].revision
  }

  /** The frame comes from the worker of the current generation. */
  ghost predicate FromCurrent(db: Db, f: Frame) {
    var key := GenKey(f.dep, f.gen);
    key in db.generations && db.generations[key].status == Current && db.generations[key].token == f.token
  }

  /** How a frame of the current worker can be out of turn. */
  ghost predicate OutOfTurn(db: Db, f: Frame, error: Error)
    requires FromCurrent(db, f)
  {
    var last := db.generations[GenKey(f.dep, f.gen)].lastSeq;
    || (error == MissingSequence && f.seqno <= last)
    || (error == SequenceConflict && f.seqno > last + 1)
    || (error == StateConflict && f.seqno == last + 1 && f.dep in db.deployments && f.base != db.deployments[f.dep].revision)
  }

  lemma RefusalMeans(s: System, f: Frame)
    requires SystemOk(s)
    ensures Refusal(s.db, f).None? <==> Admissible(s.db, f)
    ensures Refusal(s.db, f).None? ==> f.Key() !in s.applied
    ensures Refusal(s.db, f) == Some(Error.Fenced) <==>
      !(IsCurrent(s.db, GenKey(f.dep, f.gen)) && s.db.generations[GenKey(f.dep, f.gen)].token == f.token)
    ensures Refusal(s.db, f).Some? && FromCurrent(s.db, f) ==> OutOfTurn(s.db, f, Refusal(s.db, f).value)
  {
    var key := GenKey(f.dep, f.gen);
    if IsCurrent(s.db, key) {
      assert GenerationOk(s.db.deployments, key, s.db.generations[key]);
    }
    assert f.Key() in s.db.ledger ==> ReceiptOk(s.db.deployments, s.db.generations, f.Key(), s.db.ledger[f.Key()]);
  }

  // ---- Generations ----------------------------------------------------------------------------------------

  /** Row by row, what a restart of the daemon does. */
  ghost predicate Restarted(a: Db, b: Db, now: int) {
    && b == a.(deployments := b.deployments, generations := b.generations, health := b.health)
    && b.deployments.Keys == a.deployments.Keys && b.generations.Keys == a.generations.Keys && b.health.Keys == a.health.Keys
    && (forall id :: id in a.deployments ==>
          b.deployments[id] == if a.deployments[id].status == Active
                               then a.deployments[id].(activeGeneration := 0) else a.deployments[id])
    && (forall k :: k in a.generations ==>
          && b.generations[k] == a.generations[k].(status := Retired, retiredAt := b.generations[k].retiredAt)
          && (a.generations[k].status == Retired || a.generations[k].retiredAt.Some? ==>
                b.generations[k].retiredAt == a.generations[k].retiredAt)
          && (a.generations[k].status == Current && a.generations[k].retiredAt.None? ==> b.generations[k].retiredAt == Some(now)))
    && (forall id :: id in a.health ==>
          b.health[id] == if id in a.deployments && a.deployments[id].status == Active
                          then a.health[id].(gen := 0, status := Starting) else a.health[id])
  }

  /** After a restart of the daemon no worker of the old process can write, and nothing it wrote is lost. */
  lemma RecoverMeans(db: Db, now: int)
    ensures var b := Recover(db, now);
      && (forall k :: !IsCurrent(b, k)) && (forall f: Frame :: Refusal(b, f) == Some(Error.Fenced))
      && b.deployments.Keys == db.deployments.Keys && b.generations.Keys == db.generations.Keys
      && (forall dep :: dep in db.deployments ==> SameSources(db, b, dep))
      && b.ledger == db.ledger && b.events == db.events && b.deliveries == db.deliveries && Restarted(db, b, now)
  {
    var b := Recover(db, now);
    assert b == db.(deployments := b.deployments, generations := b.generations, health := b.health);
    forall dep | dep in db.deployments ensures SameSources(db, b, dep) {
      assert b.checkpoints == db.checkpoints;
    }
  }

  /** A current generation has become ready, which it was not. */
  ghost predicate Readied(a: Db, b: Db, key: GenKey, now: int) {
    && Unready(a, key)
    && b == a.(generations := a.generations[key := a.generations[key].(readyAt := Some(now))],
               health := a.health[key.dep := a.health[key.dep].(status := Starting)])
  }

  /** The generation is current and watched, and has not become ready. */
  ghost predicate Unready(db: Db, key: GenKey) {
    && key.dep != "" && key.gen >= 1
    && key in db.generations && db.generations[key].status == Current && db.generations[key].readyAt == None
    && key.dep in db.health && db.health[key.dep].gen == key.gen
  }

  /** Its worker is refused nothing it was not refused before. */
  lemma ReadyMeans(db: Db, dep: DeploymentId, gen: nat, now: int)
    ensures var o := MarkReady(db, dep, gen, now);
      && (o.reply.Ok? <==> Unready(db, GenKey(dep, gen)))
      && (o.reply == Err(InvalidInput) <==> dep == "" || gen == 0)
      && (if o.reply.Ok? then Readied(db, o.db, GenKey(dep, gen), now) else o.db == db)
      && forall f: Frame :: Refusal(o.db, f) == Refusal(db, f)
  {
    var o := MarkReady(db, dep, gen, now);
    if o.reply.Ok? {
      assert o.db == db.(generations := o.db.generations, health := o.db.health);
    }
  }

  lemma ReadyPerforms(db: Db, dep: DeploymentId, gen: nat, now: int)
    ensures Perform(db, GenerationReady(dep, gen, now)) == MarkReady(db, dep, gen, now).db
  {
  }

  /** Only this generation's row was retired, when it was not before, and its health row follows it. */
  ghost predicate HaltedRows(a: Db, b: Db, key: GenKey, failed: bool, now: int) {
    && key in a.generations
    && var stamp := if a.generations[key].retiredAt.Some? then a.generations[key].retiredAt else Some(now);
       var health := if key.dep in a.health && a.health[key.dep].gen == key.gen && !failed
                     then a.health[key.dep := a.health[key.dep].(status := Stopped)] else a.health;
       b == a.(generations := a.generations[key := a.generations[key].(status := Retired, retiredAt := stamp)], health := health)
  }

  /** ... so its worker is fenced. */
  ghost predicate Halted(a: Db, b: Db, key: GenKey, failed: bool, now: int) {
    && HaltedRows(a, b, key, failed, now)
    && forall f: Frame :: f.dep == key.dep && f.gen == key.gen ==> Refusal(b, f) == Some(Error.Fenced)
  }

  lemma StoppedColumns(db: Db, dep: DeploymentId, gen: nat, failed: bool, now: int)
    ensures var o := MarkStopped(db, dep, gen, failed, now);
      && (o.reply.Ok? <==> dep != "" && gen >= 1 && GenKey(dep, gen) in db.generations) && (o.reply.Err? ==> o.db == db)
      && (o.reply.Ok? ==> HaltedRows(db, o.db, GenKey(dep, gen), failed, now) && !IsCurrent(o.db, GenKey(dep, gen)))
  {
  }

  lemma StoppedMeans(db: Db, dep: DeploymentId, gen: nat, failed: bool, now: int)
    ensures var o := MarkStopped(db, dep, gen, failed, now);
      && (o.reply.Ok? <==> dep != "" && gen >= 1 && GenKey(dep, gen) in db.generations) && (o.reply.Err? ==> o.db == db)
      && (o.reply.Ok? ==> Halted(db, o.db, GenKey(dep, gen), failed, now))
  {
    hide MarkStopped, HaltedRows, Refusal;
    StoppedColumns(db, dep, gen, failed, now);
    if MarkStopped(db, dep, gen, failed, now).reply.Ok? {
      RetiredRefuses(MarkStopped(db, dep, gen, failed, now).db, dep, gen);
    }
  }

  lemma RetiredRefuses(db: Db, dep: DeploymentId, gen: nat)
    requires !IsCurrent(db, GenKey(dep, gen))
    ensures forall f: Frame :: f.dep == dep && f.gen == gen ==> Refusal(db, f) == Some(Error.Fenced)
  {
  }

  // ---- Operators --------------------------------------------------------------------------------------------

  /** Pausing or resuming fences every worker of the deployment, and keeps what the next one starts from. */
  ghost predicate Paused(a: Db, b: Db, id: DeploymentId, to: Status, expires: Option<int>, now: int) {
    && FencedOut(b, id) && SameSources(a, b, id) && OneChanged(a, b, id) && Retires(a, b, id, now)
    && b.deployments[id] == a.deployments[id].(status := to, activeGeneration := 0, expiresAt := expires)
    && FollowsHealth(a, b, id, 0, if to == Active then Starting else Stopped)
  }

  lemma StatusMeans(db: Db, id: DeploymentId, from: Status, to: Status, expires: Option<int>, now: int)
    requires Inv(db)
    ensures var o := SetStatus(db, id, from, to, expires, now);
      && (o.reply.Ok? <==> id in db.deployments && db.deployments[id].status == from) && (o.reply.Err? ==> o.db == db)
      && (o.reply.Ok? ==> Paused(db, o.db, id, to, expires, now))
  {
    var o := SetStatus(db, id, from, to, expires, now);
    if o.reply.Ok? {
      assert o.db == db.(deployments := o.db.deployments, generations := o.db.generations, health := o.db.health);
      RetiredOthers(db, o.db, id, now);
      if from == Active {
        RetiredFence(db, o.db, id, now);
        RetireAllRetires(db, o.db, id, now);
      } else {
        InactiveIsFenced(db, id);
        NoneRetires(db, o.db, id, now);
        NoneIsFenced(o.db, id);
      }
    }
  }

  /** An archived deployment has no generation left that could write, and none can be opened. */
  ghost predicate Shelved(a: Db, b: Db, id: DeploymentId, now: int) {
    && FencedOut(b, id) && SameSources(a, b, id) && OthersKept(a, b, id) && Retires(a, b, id, now)
    && b == a.(deployments := a.deployments[id := a.deployments[id].(status := Archived, expiresAt := None)],
               generations := b.generations)
    && b.deployments[id].activeGeneration == 0
    && forall snapshot: Snapshot, fingerprint: string, token: Token, at: int ::
         snapshot.dep == id ==> Activate(b, snapshot, fingerprint, token, at).reply.Err?
  }

  lemma ArchiveMeans(db: Db, id: DeploymentId, now: int)
    requires Inv(db)
    ensures var o := Archive(db, id, now);
      && (o.reply.Ok? <==> id in db.deployments && db.deployments[id].status == Inactive) && (o.reply.Err? ==> o.db == db)
      && (o.reply.Ok? ==> Shelved(db, o.db, id, now))
  {
    var o := Archive(db, id, now);
    if o.reply.Ok? {
      assert o.db == db.(deployments := o.db.deployments, generations := o.db.generations);
      assert DeploymentOk(db.generations, id, db.deployments[id]);
      RetireAllRetires(db, o.db, id, now);
      RetiredOthers(db, o.db, id, now);
      RetiredFence(db, o.db, id, now);
      ArchivedOpensNone(o.db, id);
    }
  }

  lemma ArchivedOpensNone(db: Db, id: DeploymentId)
    requires id in db.deployments && db.deployments[id].status == Archived
    ensures forall snapshot: Snapshot, fingerprint: string, token: Token, at: int ::
      snapshot.dep == id ==> Activate(db, snapshot, fingerprint, token, at).reply.Err?
  {
  }

  /** Nothing of the deployment is left in any table. */
  ghost predicate Gone(db: Db, id: DeploymentId) {
    && id !in db.deployments && (forall n :: n in db.names ==> db.names[n] != id) && id !in db.health
    && (forall k :: k in db.generations ==> k.dep != id) && (forall k :: k in db.ledger ==> k.dep != id)
    && (forall k :: k in db.checkpoints ==> k.dep != id) && (forall k :: k in db.bindings ==> k.dep != id)
    && (forall o :: o in db.events ==> db.events[o].dep != id) && (forall k :: k in db.deliveries ==> db.deliveries[k].dep != id)
  }

  /** Outbox rows of other deployments are as they were. */
  ghost predicate OthersQueued(a: Db, b: Db, id: DeploymentId) {
    && (forall o :: o in a.events && a.events[o].dep != id ==> o in b.events && b.events[o] == a.events[o])
    && (forall k :: k in a.deliveries && a.deliveries[k].dep != id ==> k in b.deliveries && b.deliveries[k] == a.deliveries[k])
  }

  /** The deployment is archived and nothing of it waits to be delivered, unless that is waived. */
  ghost predicate Purgeable(db: Db, id: DeploymentId, force: bool) {
    && id in db.deployments && db.deployments[id].status == Archived
    && (force || forall k :: k in db.deliveries && db.deliveries[k].dep == id ==>
                   db.deliveries[k].status != Pending && db.deliveries[k].status != Sending)
  }

  lemma PurgeAnswers(db: Db, id: DeploymentId, force: bool)
    requires forall k :: k in db.deliveries ==> k.outbox in db.events && db.events[k.outbox].dep == db.deliveries[k].dep
    ensures Purge(db, id, force).reply.Ok? <==> Purgeable(db, id, force)
    ensures Purge(db, id, force).db == if Purgeable(db, id, force) then DeleteDeployment(db, id) else db
  {
    hide DeleteDeployment;
  }

  lemma PurgeMeans(db: Db, id: DeploymentId, force: bool)
    requires Inv(db)
    ensures var o := Purge(db, id, force);
      && (o.reply.Ok? <==> Purgeable(db, id, force))
      && (o.reply.Ok? ==>
            && Gone(o.db, id) && OthersKept(db, o.db, id) && OthersQueued(db, o.db, id)
            && o.db.deployments == db.deployments - {id} && o.db.health == db.health - {id})
      && (o.reply.Err? ==> o.db == db)
  {
    hide Purge, Purgeable, DeleteDeployment;
    PurgeClears(db, id);
    forall k | k in db.deliveries ensures k.outbox in db.events && db.events[k.outbox].dep == db.deliveries[k].dep {
      assert DeliveryOk(db.events, db.bindings, k, db.deliveries[k]);
    }
    PurgeAnswers(db, id, force);
  }

  lemma PurgeClears(db: Db, id: DeploymentId)
    ensures Gone(DeleteDeployment(db, id), id) && OthersKept(db, DeleteDeployment(db, id), id) && OthersQueued(db, DeleteDeployment(db, id), id)
    ensures DeleteDeployment(db, id).deployments == db.deployments - {id} && DeleteDeployment(db, id).health == db.health - {id}
  {
  }

  /** An edit takes only on the revision it was made for, and no worker can overwrite it with what it had computed. */
  ghost predicate Edited(a: Db, b: Db, id: DeploymentId, state: Json, now: int) {
    && id in a.deployments && FencedOut(b, id) && OneChanged(a, b, id) && Retires(a, b, id, now)
    && b.deployments[id] == a.deployments[id].(state := state, revision := a.deployments[id].revision + 1, activeGeneration := 0)
    && FollowsHealth(a, b, id, 0, if a.deployments[id].status == Active then Starting else Stopped)
    && b.checkpoints == a.checkpoints
  }

  lemma EditMeans(db: Db, id: DeploymentId, base: nat, state: Json, now: int)
    ensures var o := ReplaceState(db, id, base, state, now);
      && (o.reply.Ok? <==> state != "" && id in db.deployments && db.deployments[id].status != Archived && db.deployments[id].revision == base)
      && (o.reply.Err? ==> o.db == db)
      && (o.reply.Ok? ==> o.reply == Ok(base + 1) && Edited(db, o.db, id, state, now))
  {
    var o := ReplaceState(db, id, base, state, now);
    if o.reply.Ok? {
      assert o.db == db.(deployments := o.db.deployments, generations := o.db.generations, health := o.db.health);
      RetiredOthers(db, o.db, id, now);
      RetireAllRetires(db, o.db, id, now);
      RetiredFence(db, o.db, id, now);
    }
  }

  /** A clear takes only while nothing runs; the state and its revision stay. */
  ghost predicate Cleared(a: Db, b: Db, id: DeploymentId, now: int) {
    && id in a.deployments && FencedOut(b, id) && OneChanged(a, b, id) && Retires(a, b, id, now)
    && b.deployments[id] == a.deployments[id].(activeGeneration := 0) && FollowsHealth(a, b, id, 0, Stopped)
    && forall k :: k in b.checkpoints ==> k.dep != id
  }

  lemma ClearMeans(db: Db, id: DeploymentId, now: int)
    ensures var o := ClearCheckpoints(db, id, now);
      && (o.reply.Ok? <==> id != "" && id in db.deployments && db.deployments[id].status == Inactive) && (o.reply.Err? ==> o.db == db)
      && (o.reply.Ok? ==> o.reply == Ok(|CheckpointsOf(db, id)|) && Cleared(db, o.db, id, now))
  {
    var o := ClearCheckpoints(db, id, now);
    if o.reply.Ok? {
      assert o.db == db.(deployments := o.db.deployments, generations := o.db.generations, health := o.db.health, checkpoints := o.db.checkpoints);
      CheckpointCount(db, id);
      ClearedOthers(db, o.db, id, now);
      RetireAllRetires(db, o.db, id, now);
      RetiredFence(db, o.db, id, now);
    }
  }

  lemma ClearedOthers(a: Db, b: Db, dep: DeploymentId, now: int)
    requires b.generations == RetireAll(a.generations, {dep}, now)
    requires b.checkpoints == map k | k in a.checkpoints && k.dep != dep :: a.checkpoints[k]
    ensures OthersKept(a, b, dep) && CheckpointsOf(b, dep) == map[]
  {
  }

  /** One row, one source. */
  lemma CheckpointCount(db: Db, id: DeploymentId)
    ensures |set k | k in db.checkpoints && k.dep == id| == |CheckpointsOf(db, id)|
  {
    var rows := set k | k in db.checkpoints && k.dep == id;
    SourceCount(rows, CheckpointsOf(db, id).Keys, id);
  }

  lemma {:induction false} SourceCount(rows: set<CheckpointKey>, sources: set<string>, id: DeploymentId)
    requires (forall k :: k in rows ==> k.dep == id && k.source in sources) && forall s :: s in sources ==> CheckpointKey(id, s) in rows
    ensures |rows| == |sources|
  {
    if sources == {} {
      assert rows == {};
    } else {
      var s :| s in sources;
      SourceCount(rows - {CheckpointKey(id, s)}, sources - {s}, id);
    }
  }

  /** Each delivery has its event. */
  lemma Queues(db: Db)
    requires Inv(db)
    ensures BindingsOk(db.bindings) && forall k :: k in db.deliveries ==> k.outbox in db.events
  {
    forall k | k in db.deliveries ensures k.outbox in db.events {
      assert DeliveryOk(db.events, db.bindings, k, db.deliveries[k]);
    }
  }

  lemma TablesOk(s: System)
    requires SystemOk(s)
    ensures Inv(s.db)
  {
  }

  // ---- Activation -----------------------------------------------------------------------------------------------

  /** What the snapshot saw is still so. */
  ghost predicate Unchanged(db: Db, s: Snapshot) {
    && s.dep in db.deployments
    && var d := db.deployments[s.dep];
       && d.artifact == s.artifact && d.configRevision == s.configRevision
       && d.revision == s.revision && d.activeGeneration == s.activeGeneration
  }

  /** The deployment is active and not past its expiry. */
  ghost predicate Running(db: Db, id: DeploymentId, now: int) {
    && id in db.deployments && db.deployments[id].status == Active
    && (db.deployments[id].expiresAt.Some? ==> db.deployments[id].expiresAt.value > now)
  }

  /** Row by row: generation `gen`, the next number of its deployment, is open and every earlier one of it retired. */
  ghost predicate Opened(a: Db, b: Db, s: Snapshot, fingerprint: string, token: Token, gen: nat, now: int) {
    var key := GenKey(s.dep, gen);
    && (forall k :: k in a.generations && k.dep == s.dep ==> k.gen < gen)
    && gen >= 1 && (gen > 1 ==> GenKey(s.dep, gen - 1) in a.generations)
    && key in b.generations && Retires(a, b.(generations := b.generations - {key}), s.dep, now)
    && (forall k :: k in a.generations ==> a.generations[k].rowid < b.generations[key].rowid)
    && b.generations[key]
       == Generation(b.generations[key].rowid, token, s.artifact, s.configRevision, fingerprint, Current, 0, None, None)
    && s.dep in a.deployments && b.deployments == a.deployments[s.dep := a.deployments[s.dep].(activeGeneration := gen)]
    && FollowsHealth(a, b, s.dep, gen, Starting) && b.health == a.health[s.dep := b.health[s.dep]]
    && b == a.(generations := b.generations, deployments := b.deployments, health := b.health)
  }

  lemma ActivateAnswers(db: Db, s: Snapshot, fingerprint: string, token: Token, now: int)
    ensures var r := Activate(db, s, fingerprint, token, now).reply;
      if s.dep == "" || s.artifact == "" || s.configRevision == 0 || fingerprint == "" then r == Err(InvalidInput)
      else if !Running(db, s.dep, now) then r == Err(NotFound)
      else if !Unchanged(db, s) then r == Err(SnapshotChanged) else r.Ok?
    ensures Activate(db, s, fingerprint, token, now).reply.Err? ==> Activate(db, s, fingerprint, token, now).db == db
  {
  }

  /** The generations without the prior one's claim to be current. */
  ghost function PriorRetired(db: Db, dep: DeploymentId, now: int): Generations
    requires dep in db.deployments
  {
    var prior := GenKey(dep, db.deployments[dep].activeGeneration);
    if prior.gen > 0 && IsCurrent(db, prior)
    then db.generations[prior := db.generations[prior].(status := Retired, retiredAt := Some(now))] else db.generations
  }

  ghost predicate OpensTables(a: Db, b: Db, s: Snapshot, fingerprint: string, token: Token, gen: nat, now: int) {
    && s.dep in a.deployments
    && b.generations == PriorRetired(a, s.dep, now)[GenKey(s.dep, gen) :=
         Generation(NextGenerationRow(a), token, s.artifact, s.configRevision, fingerprint, Current, 0, None, None)]
    && b.deployments == a.deployments[s.dep := a.deployments[s.dep].(activeGeneration := gen)]
    && FollowsHealth(a, b, s.dep, gen, Starting) && b.health == a.health[s.dep := b.health[s.dep]]
    && b == a.(generations := b.generations, deployments := b.deployments, health := b.health)
  }

  lemma ActivateTables(db: Db, s: Snapshot, fingerprint: string, token: Token, now: int)
    requires Activate(db, s, fingerprint, token, now).reply.Ok?
    ensures var o := Activate(db, s, fingerprint, token, now);
      o.reply.value == LatestGeneration(db, s.dep) + 1 && OpensTables(db, o.db, s, fingerprint, token, o.reply.value, now)
  {
  }

  /** The prior generation, if it is current, is the only current one of its deployment. */
  lemma PriorRetires(a: Db, b: Db, dep: DeploymentId, now: int)
    requires GenerationsOk(a.deployments, a.generations) && dep in a.deployments && b.generations == PriorRetired(a, dep, now)
    ensures Retires(a, b, dep, now)
  {
    forall k | k in a.generations && k.dep == dep && a.generations[k].status == Current
      ensures k == GenKey(dep, a.deployments[dep].activeGeneration) && k.gen >= 1
    {
      assert GenerationOk(a.deployments, k, a.generations[k]);
    }
  }

  lemma PriorKeys(db: Db, dep: DeploymentId, key: GenKey, row: Generation, now: int)
    requires dep in db.deployments && key !in db.generations
    ensures PriorRetired(db, dep, now)[key := row] - {key} == PriorRetired(db, dep, now)
  {
  }

  lemma TablesOpen(a: Db, b: Db, s: Snapshot, fingerprint: string, token: Token, gen: nat, now: int)
    requires GenerationsOk(a.deployments, a.generations) && gen == LatestGeneration(a, s.dep) + 1
    requires OpensTables(a, b, s, fingerprint, token, gen, now)
    ensures Opened(a, b, s, fingerprint, token, gen, now)
  {
    hide Retires, FollowsHealth, PriorRetired, LatestGeneration, NextGenerationRow, GenerationsOk;
    var key := GenKey(s.dep, gen);
    FreshRow(a);
    PriorKeys(a, s.dep, key, b.generations[key], now);
    PriorRetires(a, b.(generations := b.generations - {key}), s.dep, now);
  }

  lemma ActivateMeans(db: Db, s: Snapshot, fingerprint: string, token: Token, now: int)
    requires Inv(db) && Activate(db, s, fingerprint, token, now).reply.Ok?
    ensures var o := Activate(db, s, fingerprint, token, now); Opened(db, o.db, s, fingerprint, token, o.reply.value, now)
  {
    hide Activate, OpensTables, Opened;
    ActivateTables(db, s, fingerprint, token, now);
    TablesOpen(db, Activate(db, s, fingerprint, token, now).db, s, fingerprint, token, LatestGeneration(db, s.dep) + 1, now);
  }

  // ---- Deploys and expiry ---------------------------------------------------------------------------------------

  /** What is wrong with a deploy, field by field. */
  ghost predicate BadDeploy(i: DeployInput) {
    || (forall c :: c in i.name ==> Space(c)) || (forall c :: c in i.infoName ==> Space(c))
    || i.configHash == "" || i.state == "" || i.destinations == [] || "" in i.destinations
    || i.threshold == 0 || i.maxEvents == 0 || i.maxEvents > 256 || i.retention <= 0
  }

  /** A new name needs no expected revision and takes the new identifier; a known one must be at the expected revision. */
  ghost predicate DeployAnswers(db: Db, newId: DeploymentId, i: DeployInput, r: Result<DeploymentId>) {
    if BadDeploy(i) then r == Err(InvalidInput)
    else if i.name !in db.names then r == if i.expected.Some? then Err(StateConflict) else Ok(newId)
    else if db.names[i.name] !in db.deployments then r == Err(NotFound)
    else
      var d := db.deployments[db.names[i.name]];
      r == if d.status == Archived then Err(InvalidStatus) else if i.expected != Some(d.revision) then Err(StateConflict)
           else Ok(db.names[i.name])
  }

  /** The row of a deploy: everything asked for, under the next revision, and no worker yet. */
  ghost predicate DeployedRow(a: Db, i: DeployInput, id: DeploymentId, row: Deployment) {
    && row.name == (if i.name in a.names && id in a.deployments then a.deployments[id].name else i.name)
    && row.status == Active && row.artifact == i.artifact && row.configHash == i.configHash && row.threshold == i.threshold
    && row.retention == i.retention && row.state == i.state && row.expiresAt == i.expiresAt && row.activeGeneration == 0
    && (i.name !in a.names ==> row.configRevision == 1 && row.revision == 0)
    && (i.name in a.names ==>
          && id == a.names[i.name] && id in a.deployments && row.revision == a.deployments[id].revision + 1
          && row.configRevision == a.deployments[id].configRevision + (if a.deployments[id].configHash == i.configHash then 0 else 1))
  }

  /** The next revision of a destination. */
  ghost predicate NextRevision(bindings: map<BindingKey, Binding>, dep: DeploymentId, k: BindingKey) {
    && k !in bindings && k.dep == dep && k.revision >= 1
    && (k.revision > 1 ==> BindingKey(dep, k.dest, k.revision - 1) in bindings)
    && forall j :: j in bindings && j.dep == dep && j.dest == k.dest ==> j.revision < k.revision
  }

  /** A new row binds this destination to this configuration. */
  ghost predicate Binds(a: map<BindingKey, Binding>, b: map<BindingKey, Binding>, dest: nat, config: Json) {
    exists k :: k in b && k !in a && k.dest == dest && b[k].config == config
  }

  /** The earlier bindings of the deployment are retired, and each destination is bound under its next revision. */
  ghost predicate Rebound(a: map<BindingKey, Binding>, b: map<BindingKey, Binding>, dep: DeploymentId, destinations: seq<Json>) {
    && (forall k :: k in a ==> k in b && b[k] == if k.dep == dep then Binding(a[k].config, true) else a[k])
    && (forall k :: k in b && k !in a ==>
          NextRevision(a, dep, k) && 1 <= k.dest <= |destinations| && b[k] == Binding(destinations[k.dest - 1], false))
    && (forall i :: 0 <= i < |destinations| ==> Binds(a, b, i + 1, destinations[i]))
  }

  ghost predicate Deployed(a: Db, b: Db, id: DeploymentId, i: DeployInput, now: int) {
    && id in b.deployments && DeployedRow(a, i, id, b.deployments[id]) && b.deployments == a.deployments[id := b.deployments[id]]
    && b.names == a.names[i.name := id]
    && Retires(a, b, id, now) && FollowsHealth(a, b, id, 0, Starting) && b.health == a.health[id := b.health[id]]
    && Rebound(a.bindings, b.bindings, id, i.destinations)
    && b == a.(deployments := b.deployments, names := b.names, generations := b.generations, bindings := b.bindings, health := b.health)
  }

  lemma BadInput(i: DeployInput)
    ensures BadDeploy(i) <==> !ValidDeploy(i)
  {
  }

  lemma DeployRefuses(db: Db, newId: DeploymentId, i: DeployInput, now: int)
    ensures DeployAnswers(db, newId, i, Deploy(db, newId, i, now).reply)
    ensures Deploy(db, newId, i, now).reply.Err? ==> Deploy(db, newId, i, now).db == db
  {
    hide BadDeploy, ValidDeploy;
    BadInput(i);
  }

  lemma BindingsRebound(bindings: map<BindingKey, Binding>, dep: DeploymentId, destinations: seq<Json>)
    ensures Rebound(bindings, RetireBindings(bindings, dep) + NewBindings(bindings, dep, destinations), dep, destinations)
  {
    hide Rebound, Binds, NextRevision, NewBindings, NewBindingKey, RetireBindings;
    var added := NewBindings(bindings, dep, destinations);
    forall k | k in added
      ensures NextRevision(bindings, dep, k) && 1 <= k.dest <= |destinations| && added[k] == Binding(destinations[k.dest - 1], false)
    {
      AddedBinding(bindings, dep, destinations, k);
    }
    forall i | 0 <= i < |destinations| ensures Binds(bindings, added, i + 1, destinations[i]) {
      BindingAt(bindings, dep, destinations, i);
    }
    LaidOver(bindings, added, dep, destinations);
  }

  lemma LaidOver(a: map<BindingKey, Binding>, added: map<BindingKey, Binding>, dep: DeploymentId, destinations: seq<Json>)
    requires forall k :: k in added ==>
      NextRevision(a, dep, k) && 1 <= k.dest <= |destinations| && added[k] == Binding(destinations[k.dest - 1], false)
    requires forall i :: 0 <= i < |destinations| ==> Binds(a, added, i + 1, destinations[i])
    ensures Rebound(a, RetireBindings(a, dep) + added, dep, destinations)
  {
    var b := RetireBindings(a, dep) + added;
    forall i | 0 <= i < |destinations| ensures Binds(a, b, i + 1, destinations[i]) {
      assert Binds(a, added, i + 1, destinations[i]);
      var k :| k in added && k !in a && k.dest == i + 1 && added[k].config == destinations[i];
      assert k in b && b[k] == added[k];
    }
    hide Binds;
    forall k | k in a ensures k !in added {
      assert k in added ==> NextRevision(a, dep, k);
    }
    hide NextRevision;
  }

  lemma BindingAt(bindings: map<BindingKey, Binding>, dep: DeploymentId, destinations: seq<Json>, i: nat)
    requires i < |destinations|
    ensures Binds(bindings, NewBindings(bindings, dep, destinations), i + 1, destinations[i])
  {
    AddedBinding(bindings, dep, destinations, NewBindingKey(bindings, dep, i)) by {
      assert NewBindingKey(bindings, dep, i) in NewBindings(bindings, dep, destinations);
    }
    assert NewBindingKey(bindings, dep, i) in NewBindings(bindings, dep, destinations);
  }

  /** A row that a deploy adds. */
  lemma AddedBinding(bindings: map<BindingKey, Binding>, dep: DeploymentId, destinations: seq<Json>, k: BindingKey)
    requires k in NewBindings(bindings, dep, destinations)
    ensures 1 <= k.dest <= |destinations| && NewBindings(bindings, dep, destinations)[k] == Binding(destinations[k.dest - 1], false)
    ensures NextRevision(bindings, dep, k)
  {
    var i :| 0 <= i < |destinations| && k == NewBindingKey(bindings, dep, i);
    NextBinding(bindings, dep, i);
  }

  lemma NextBinding(bindings: map<BindingKey, Binding>, dep: DeploymentId, index: nat)
    ensures var k := NewBindingKey(bindings, dep, index);
      && k !in bindings && k.revision >= 1 && (k.revision > 1 ==> BindingKey(dep, k.dest, k.revision - 1) in bindings)
  {
    var k := NewBindingKey(bindings, dep, index);
    var revisions := set j | j in bindings && j.dep == dep && j.dest == index + 1 :: j.revision;
    if k.revision > 1 {
      assert k.revision - 1 in revisions;
    }
  }

  lemma DeployMeans(db: Db, newId: DeploymentId, i: DeployInput, now: int)
    requires Deploy(db, newId, i, now).reply.Ok?
    ensures var o := Deploy(db, newId, i, now); Deployed(db, o.db, o.reply.value, i, now)
  {
    hide Retires, Rebound, ValidDeploy, NewBindings, RetireBindings, RetireAll;
    var o := Deploy(db, newId, i, now);
    RetireAllRetires(db, o.db, o.reply.value, now);
    BindingsRebound(db.bindings, o.reply.value, i.destinations);
  }

  /** Row by row: every deployment past its expiry is inactive, its generation retired and its health row stopped. */
  ghost predicate Expires(a: Db, b: Db, now: int) {
    && b == a.(deployments := b.deployments, generations := b.generations, health := b.health)
    && b.deployments.Keys == a.deployments.Keys && b.generations.Keys == a.generations.Keys && b.health.Keys == a.health.Keys
    && (forall id :: id in a.deployments ==>
          b.deployments[id] == if a.deployments[id].status == Active && !Running(a, id, now)
                               then a.deployments[id].(status := Inactive, activeGeneration := 0) else a.deployments[id])
    && (forall k :: k in a.generations ==>
          b.generations[k] == if a.generations[k].status == Current && k.dep in a.deployments
                                 && a.deployments[k.dep].status == Active && !Running(a, k.dep, now)
                              then a.generations[k].(status := Retired, retiredAt := Some(now)) else a.generations[k])
    && (forall id :: id in a.health ==>
          b.health[id] == if id in a.deployments && a.deployments[id].status != Archived
                             && a.deployments[id].expiresAt.Some? && a.deployments[id].expiresAt.value <= now
                          then a.health[id].(gen := 0, status := Stopped) else a.health[id])
  }

  lemma ExpireMeans(db: Db, now: int)
    ensures Expires(db, Expire(db, now).db, now)
  {
    var b := Expire(db, now).db;
    assert b.deployments.Keys == db.deployments.Keys && b.generations.Keys == db.generations.Keys && b.health.Keys == db.health.Keys;
  }

  // ---- Health -------------------------------------------------------------------------------------------------

  /** The latch flips exactly when the transition says so, with one notice to every active destination; the notice
      and the latch change together or not at all. */
  ghost predicate Recorded(a: Db, b: Db, dep: DeploymentId, t: Transition, nonce: nat, now: int) {
    && dep in a.health && dep in b.health
    && b == a.(health := b.health, events := b.events, deliveries := b.deliveries) && b.health == a.health[dep := b.health[dep]]
    && (t == BecameUnhealthy <==> !a.health[dep].notified && b.health[dep].notified)
    && (t == Recovered <==> a.health[dep].notified && !b.health[dep].notified)
    && (if t == Quiet then b.events == a.events && b.deliveries == a.deliveries
        else Announced(a, b, dep, t == BecameUnhealthy, nonce, now) && b.events[Random(nonce)].gen == b.health[dep].gen)
  }

  /** The columns of a notice. */
  ghost predicate NoticeRow(e: EventRow, dep: DeploymentId, unhealthy: bool, nonce: nat, now: int) {
    && e.kind == HealthNotice && e.dep == dep && e.seqno == 0 && e.createdAt == now
    && e.eventId == Notice(unhealthy, Random(nonce))
    && e.message.title == if unhealthy then "Monitor unhealthy" else "Monitor recovered"
  }

  /** One notice went in, with one pending delivery to each active destination and no other. */
  ghost predicate Announced(a: Db, b: Db, dep: DeploymentId, unhealthy: bool, nonce: nat, now: int) {
    && Random(nonce) !in a.events && Random(nonce) in b.events && b.events == a.events[Random(nonce) := b.events[Random(nonce)]]
    && NoticeRow(b.events[Random(nonce)], dep, unhealthy, nonce, now)
    && (forall o :: o in a.events ==> a.events[o].rowid < b.events[Random(nonce)].rowid)
    && (forall k :: k in a.deliveries ==> k in b.deliveries && b.deliveries[k] == a.deliveries[k])
    && (forall k :: k in b.deliveries && k !in a.deliveries ==> k.outbox == Random(nonce))
    && (forall j :: j in ActiveBindings(a, dep) ==>
          && DeliveryKey(Random(nonce), j.dest) in b.deliveries
          && b.deliveries[DeliveryKey(Random(nonce), j.dest)] == Delivery(dep, j.revision, Pending, 0, now, None, None))
    && (forall k :: k in b.deliveries && k.outbox == Random(nonce) ==> exists j :: j in ActiveBindings(a, dep) && j.dest == k.dest)
  }

  lemma NotifyMeans(db: Db, dep: DeploymentId, gen: nat, unhealthy: bool, nonce: nat, now: int)
    requires dep in db.health && BindingsOk(db.bindings) && forall k :: k in db.deliveries ==> k.outbox in db.events
    ensures Notify(db, dep, gen, unhealthy, nonce, now).Ok? <==> Random(nonce) !in db.events && !NoticeSent(db, dep, unhealthy, nonce)
    ensures Notify(db, dep, gen, unhealthy, nonce, now).Ok? ==>
      var b := Notify(db, dep, gen, unhealthy, nonce, now).value;
      && Announced(db, b, dep, unhealthy, nonce, now) && b.health == db.health[dep := db.health[dep].(notified := unhealthy)]
      && b.events[Random(nonce)].gen == gen
      && b == db.(health := b.health, events := b.events, deliveries := b.deliveries)
  {
    assert DistinctDestinations(ActiveBindings(db, dep));
    if Notify(db, dep, gen, unhealthy, nonce, now).Ok? {
      NotifyShape(db, dep, gen, unhealthy, nonce, now);
      RowAbove(db);
      NoticeRows(db, Notify(db, dep, gen, unhealthy, nonce, now).value, dep, nonce, now);
    }
  }

  lemma RowAbove(db: Db)
    ensures forall o :: o in db.events ==> db.events[o].rowid < NextEventRow(db)
  {
    var rows := set o | o in db.events :: db.events[o].rowid;
    assert NextEventRow(db) == Highest(rows) + 1;
    assert forall o :: o in db.events ==> db.events[o].rowid in rows;
  }

  lemma NotifyShape(db: Db, dep: DeploymentId, gen: nat, unhealthy: bool, nonce: nat, now: int)
    requires dep in db.health && Notify(db, dep, gen, unhealthy, nonce, now).Ok?
    ensures Random(nonce) !in db.events && (forall k :: k in db.deliveries ==> k.outbox != Random(nonce))
    ensures DistinctDestinations(ActiveBindings(db, dep))
    ensures var b := Notify(db, dep, gen, unhealthy, nonce, now).value;
      && b.health == db.health[dep := db.health[dep].(notified := unhealthy)]
      && Random(nonce) in b.events && b.events == db.events[Random(nonce) := b.events[Random(nonce)]]
      && NoticeRow(b.events[Random(nonce)], dep, unhealthy, nonce, now) && b.events[Random(nonce)].rowid == NextEventRow(db)
      && b.events[Random(nonce)].gen == gen
      && b.deliveries == db.deliveries + NoticeDeliveries(dep, Random(nonce), ActiveBindings(db, dep), now)
      && b == db.(health := b.health, events := b.events, deliveries := b.deliveries)
  {
  }

  predicate NoticeSent(db: Db, dep: DeploymentId, unhealthy: bool, nonce: nat) {
    exists o | o in db.events ::
      db.events[o].dep == dep && db.events[o].kind == HealthNotice && db.events[o].eventId == Notice(unhealthy, Random(nonce))
  }

  lemma NoticeRows(a: Db, b: Db, dep: DeploymentId, nonce: nat, now: int)
    requires DistinctDestinations(ActiveBindings(a, dep)) && (forall k :: k in a.deliveries ==> k.outbox != Random(nonce))
    requires b.deliveries == a.deliveries + NoticeDeliveries(dep, Random(nonce), ActiveBindings(a, dep), now)
    ensures forall k :: k in a.deliveries ==> k in b.deliveries && b.deliveries[k] == a.deliveries[k]
    ensures forall k :: k in b.deliveries && k !in a.deliveries ==> k.outbox == Random(nonce)
    ensures forall j :: j in ActiveBindings(a, dep) ==>
      && DeliveryKey(Random(nonce), j.dest) in b.deliveries
      && b.deliveries[DeliveryKey(Random(nonce), j.dest)] == Delivery(dep, j.revision, Pending, 0, now, None, None)
    ensures forall k :: k in b.deliveries && k.outbox == Random(nonce) ==> exists j :: j in ActiveBindings(a, dep) && j.dest == k.dest
  {
    forall j | j in ActiveBindings(a, dep) ensures DeliveryKey(Random(nonce), j.dest) in b.deliveries
      && b.deliveries[DeliveryKey(Random(nonce), j.dest)] == Delivery(dep, j.revision, Pending, 0, now, None, None)
    {
      assert DeliveryKey(Random(nonce), j.dest) in NoticeDeliveries(dep, Random(nonce), ActiveBindings(a, dep), now);
    }
  }

  /** A failure is counted by one; it is announced when the threshold is reached with the latch clear. */
  ghost predicate Counted(a: Db, b: Db, dep: DeploymentId, t: Transition, nonce: nat, now: int) {
    && Recorded(a, b, dep, t, nonce, now) && dep in a.deployments && b.health[dep].failures == a.health[dep].failures + 1
    && b.health[dep].status == (if b.health[dep].failures >= a.deployments[dep].threshold then Unhealthy else Failing)
    && (t == BecameUnhealthy <==> !a.health[dep].notified && b.health[dep].failures >= a.deployments[dep].threshold)
  }

  /** The health row after one more failure. */
  function OneMore(db: Db, dep: DeploymentId, gen: nat): Health
    requires Watched(db, dep)
  {
    var h := db.health[dep];
    h.(gen := gen, status := Degraded(h.failures + 1, db.deployments[dep].threshold), failures := h.failures + 1)
  }

  predicate Crosses(db: Db, dep: DeploymentId)
    requires Watched(db, dep)
  {
    !db.health[dep].notified && db.health[dep].failures + 1 >= db.deployments[dep].threshold
  }

  /** What counting does, given what the notification said. */
  predicate Counting(db: Db, dep: DeploymentId, row: Health, told: Result<Db>, o: Outcome<Transition>)
    requires Watched(db, dep)
  {
    o == if !Crosses(db, dep) then Outcome(SetHealth(db, dep, row), Ok(Quiet))
         else if told.Ok? then Outcome(told.value, Ok(BecameUnhealthy))
         else Outcome(db, Err(told.error))
  }

  lemma CountTells(db: Db, dep: DeploymentId, gen: nat, nonce: nat, now: int) returns (told: Result<Db>)
    requires Watched(db, dep)
    ensures Counting(db, dep, OneMore(db, dep, gen), told, CountFailure(db, dep, gen, nonce, now))
    ensures Crosses(db, dep) ==> told == Notify(SetHealth(db, dep, OneMore(db, dep, gen)), dep, gen, true, nonce, now)
  {
    told := if Crosses(db, dep) then Notify(SetHealth(db, dep, OneMore(db, dep, gen)), dep, gen, true, nonce, now) else Ok(db);
  }

  lemma CountingMeans(db: Db, dep: DeploymentId, row: Health, told: Result<Db>, o: Outcome<Transition>, nonce: nat, now: int)
    requires Watched(db, dep) && Counting(db, dep, row, told, o)
    requires row.failures == db.health[dep].failures + 1 && row.notified == db.health[dep].notified
    requires row.status == if row.failures >= db.deployments[dep].threshold then Unhealthy else Failing
    requires Crosses(db, dep) && told.Ok? ==>
      Recorded(db, told.value, dep, BecameUnhealthy, nonce, now) && told.value.health[dep] == row.(notified := true)
    ensures if o.reply.Ok? then Counted(db, o.db, dep, o.reply.value, nonce, now) else o.db == db
    ensures o.reply.Ok? ==> o.db.health[dep].gen == row.gen
  {
    QuietRecord(db, dep, row, nonce, now);
  }

  lemma CountMeans(db: Db, dep: DeploymentId, gen: nat, nonce: nat, now: int)
    requires Watched(db, dep) && BindingsOk(db.bindings) && forall k :: k in db.deliveries ==> k.outbox in db.events
    ensures var o := CountFailure(db, dep, gen, nonce, now);
      if o.reply.Ok? then Counted(db, o.db, dep, o.reply.value, nonce, now) && o.db.health[dep].gen == gen else o.db == db
  {
    hide CountFailure, Recorded, Notify;
    var told := CountTells(db, dep, gen, nonce, now);
    if Crosses(db, dep) {
      AnnouncesCount(db, dep, OneMore(db, dep, gen), gen, nonce, now);
    }
    CountingMeans(db, dep, OneMore(db, dep, gen), told, CountFailure(db, dep, gen, nonce, now), nonce, now);
  }

  lemma AnnouncesCount(db: Db, dep: DeploymentId, row: Health, gen: nat, nonce: nat, now: int)
    requires Watched(db, dep) && BindingsOk(db.bindings) && forall k :: k in db.deliveries ==> k.outbox in db.events
    requires !db.health[dep].notified && !row.notified && row.gen == gen
    ensures var told := Notify(SetHealth(db, dep, row), dep, gen, true, nonce, now);
      told.Ok? ==> Recorded(db, told.value, dep, BecameUnhealthy, nonce, now) && told.value.health[dep] == row.(notified := true)
  {
    var counted := SetHealth(db, dep, row);
    if Notify(counted, dep, gen, true, nonce, now).Ok? {
      NotifyMeans(counted, dep, gen, true, nonce, now);
      AnnouncedFrom(db, counted, Notify(counted, dep, gen, true, nonce, now).value, dep, true, nonce, now);
    }
  }

  lemma QuietRecord(db: Db, dep: DeploymentId, row: Health, nonce: nat, now: int)
    requires dep in db.health && row.notified == db.health[dep].notified
    ensures Recorded(db, SetHealth(db, dep, row), dep, Quiet, nonce, now) && SetHealth(db, dep, row).health[dep] == row
  {
  }

  lemma SuccessMeans(db: Db, dep: DeploymentId, gen: nat, nonce: nat, now: int)
    requires Watched(db, dep) && BindingsOk(db.bindings) && forall k :: k in db.deliveries ==> k.outbox in db.events
    ensures var o := ClearFailures(db, dep, gen, nonce, now);
      if o.reply.Err? then o.db == db
      else Recorded(db, o.db, dep, o.reply.value, nonce, now) && o.db.health[dep] == Health(gen, Healthy, 0, false)
  {
    var h := db.health[dep];
    var cleared := SetHealth(db, dep, h.(gen := gen, status := Healthy, failures := 0));
    if h.notified && Notify(cleared, dep, gen, false, nonce, now).Ok? {
      NotifyMeans(cleared, dep, gen, false, nonce, now);
      AnnouncedFrom(db, cleared, Notify(cleared, dep, gen, false, nonce, now).value, dep, false, nonce, now);
    }
  }

  /** The counter moved first; the notice is the same. */
  lemma AnnouncedFrom(a: Db, mid: Db, b: Db, dep: DeploymentId, unhealthy: bool, nonce: nat, now: int)
    requires mid == a.(health := mid.health) && Announced(mid, b, dep, unhealthy, nonce, now)
    requires b == mid.(health := b.health, events := b.events, deliveries := b.deliveries)
    ensures Announced(a, b, dep, unhealthy, nonce, now) && b == a.(health := b.health, events := b.events, deliveries := b.deliveries)
  {
    assert ActiveBindings(mid, dep) == ActiveBindings(a, dep);
  }

  /** A notice of this identifier is there already. */
  ghost predicate Noticed(db: Db, nonce: nat) {
    || Random(nonce) in db.events
    || exists o :: o in db.events && db.events[o].eventId.Notice? && db.events[o].eventId.outbox == Random(nonce)
  }

  /** Why an outcome is not recorded: the input, the fence, or a notice whose identifier is taken. */
  ghost predicate Answers(db: Db, r: Result<Transition>, invalid: bool, heard: bool, nonce: nat) {
    if invalid then r == Err(InvalidInput) else if !heard then r == Err(Error.Fenced)
    else r.Ok? || (r == Err(Duplicate) && Noticed(db, nonce))
  }

  lemma NotifyRefuses(db: Db, dep: DeploymentId, gen: nat, unhealthy: bool, nonce: nat, now: int)
    requires dep in db.health && BindingsOk(db.bindings) && forall k :: k in db.deliveries ==> k.outbox in db.events
    ensures var told := Notify(db, dep, gen, unhealthy, nonce, now); told.Err? ==> told == Err(Duplicate) && Noticed(db, nonce)
  {
    assert DistinctDestinations(ActiveBindings(db, dep));
  }

  lemma CountRefuses(db: Db, dep: DeploymentId, gen: nat, nonce: nat, now: int)
    requires Watched(db, dep) && BindingsOk(db.bindings) && forall k :: k in db.deliveries ==> k.outbox in db.events
    ensures Answers(db, CountFailure(db, dep, gen, nonce, now).reply, false, true, nonce)
  {
    hide Notify, Noticed;
    var counted := SetHealth(db, dep, OneMore(db, dep, gen));
    NotifyRefuses(counted, dep, gen, true, nonce, now);
    SameNoticed(counted, db, nonce);
  }

  lemma ClearRefuses(db: Db, dep: DeploymentId, gen: nat, nonce: nat, now: int)
    requires Watched(db, dep) && BindingsOk(db.bindings) && forall k :: k in db.deliveries ==> k.outbox in db.events
    ensures Answers(db, ClearFailures(db, dep, gen, nonce, now).reply, false, true, nonce)
  {
    hide Notify, Noticed;
    var cleared := SetHealth(db, dep, db.health[dep].(gen := gen, status := Healthy, failures := 0));
    NotifyRefuses(cleared, dep, gen, false, nonce, now);
    SameNoticed(cleared, db, nonce);
  }

  lemma SameNoticed(a: Db, b: Db, nonce: nat)
    requires a.events == b.events
    ensures Noticed(a, nonce) <==> Noticed(b, nonce)
  {
  }

  /** Only the active generation of an active deployment is heard; a deferred run changes neither counter nor latch. */
  ghost predicate RunTold(a: Db, b: Db, dep: DeploymentId, gen: nat, status: RunStatus, t: Transition, nonce: nat, now: int) {
    && Heard(a, dep, gen) && Recorded(a, b, dep, t, nonce, now)
    && match status
       case Succeeded => b.health[dep] == Health(gen, Healthy, 0, false)
       case Failed => Counted(a, b, dep, t, nonce, now) && b.health[dep].gen == gen
       case Deferred =>
         && t == Quiet
         && b.health[dep] == a.health[dep].(status := if a.health[dep].failures >= a.deployments[dep].threshold then Unhealthy
                                                      else if a.health[dep].failures > 0 then Failing else a.health[dep].status)
  }

  /** An active deployment, this generation of which is active and followed by its health row. */
  ghost predicate Heard(db: Db, dep: DeploymentId, gen: nat) {
    && dep in db.deployments && db.deployments[dep].status == Active && db.deployments[dep].activeGeneration == gen
    && dep in db.health && db.health[dep].gen == gen
  }

  lemma RunMeans(db: Db, dep: DeploymentId, gen: nat, status: RunStatus, nonce: nat, now: int)
    requires Inv(db)
    ensures var o := RecordRun(db, dep, gen, status, nonce, now);
      && (if o.reply.Ok? then RunTold(db, o.db, dep, gen, status, o.reply.value, nonce, now) else o.db == db)
      && Answers(db, o.reply, dep == "" || gen == 0, Heard(db, dep, gen), nonce)
  {
    hide ClearFailures, CountFailure, Inv, Recorded, Noticed;
    Queues(db);
    if Watched(db, dep) {
      if status == Succeeded {
        SuccessMeans(db, dep, gen, nonce, now);
        ClearRefuses(db, dep, gen, nonce, now);
      } else if status == Failed {
        CountMeans(db, dep, gen, nonce, now);
        CountRefuses(db, dep, gen, nonce, now);
      } else {
        DeferredMeans(db, dep, gen, nonce, now);
      }
    }
  }

  lemma DeferredMeans(db: Db, dep: DeploymentId, gen: nat, nonce: nat, now: int)
    ensures var o := RecordRun(db, dep, gen, Deferred, nonce, now);
      if o.reply.Ok? then RunTold(db, o.db, dep, gen, Deferred, o.reply.value, nonce, now) else o.db == db
  {
  }

  /** A worker that stayed up is healthy, once for each generation. */
  ghost predicate Stabilised(a: Db, b: Db, dep: DeploymentId, gen: nat, t: Transition, nonce: nat, now: int) {
    && Heard(a, dep, gen) && a.health[dep].status == Starting
    && Recorded(a, b, dep, t, nonce, now) && b.health[dep] == Health(gen, Healthy, 0, false)
  }

  lemma StableMeans(db: Db, dep: DeploymentId, gen: nat, nonce: nat, now: int)
    requires Inv(db)
    ensures var o := MarkStable(db, dep, gen, nonce, now);
      && (if o.reply.Ok? then Stabilised(db, o.db, dep, gen, o.reply.value, nonce, now) else o.db == db)
      && Answers(db, o.reply, false, Heard(db, dep, gen) && db.health[dep].status == Starting, nonce)
  {
    hide ClearFailures, Inv, Recorded, Noticed;
    Queues(db);
    if Watched(db, dep) {
      SuccessMeans(db, dep, gen, nonce, now);
      ClearRefuses(db, dep, gen, nonce, now);
    }
  }

  /** A failure outside a run is counted too, if it is of the active generation or of no generation at all. */
  ghost predicate FailureTold(a: Db, b: Db, dep: DeploymentId, gen: Option<nat>, t: Transition, nonce: nat, now: int) {
    && Concerns(a, dep, gen) && Counted(a, b, dep, t, nonce, now)
    && b.health[dep].gen == if gen.Some? then gen.value else 0
  }

  /** The failure is of an active deployment, and of its active generation if of any. */
  ghost predicate Concerns(db: Db, dep: DeploymentId, gen: Option<nat>) {
    && dep in db.deployments && db.deployments[dep].status == Active && dep in db.health
    && (gen.Some? ==> db.deployments[dep].activeGeneration == gen.value)
  }

  lemma FailureMeans(db: Db, dep: DeploymentId, gen: Option<nat>, nonce: nat, now: int)
    requires Inv(db)
    ensures var o := RecordFailure(db, dep, gen, nonce, now);
      && (if o.reply.Ok? then FailureTold(db, o.db, dep, gen, o.reply.value, nonce, now) else o.db == db)
      && Answers(db, o.reply, dep == "" || gen == Some(0), Concerns(db, dep, gen), nonce)
  {
    Queues(db);
    hide CountFailure, Recorded, Counted, Noticed, Inv;
    if Watched(db, dep) {
      CountMeans(db, dep, if gen.Some? then db.deployments[dep].activeGeneration else 0, nonce, now);
      CountRefuses(db, dep, if gen.Some? then db.deployments[dep].activeGeneration else 0, nonce, now);
    }
  }

  // ---- Deliveries -----------------------------------------------------------------------------------------------

  /** A lease its holder ended: the row's status, its attempts, and when it is due again. */
  ghost predicate Ended(a: Db, b: Db, k: DeliveryKey, owner: Owner, status: DeliveryStatus, counted: nat, next: Option<int>) {
    && k in a.deliveries && a.deliveries[k].status == Sending && a.deliveries[k].owner == Some(owner)
    && var d := a.deliveries[k];
       var due := if next.Some? then next.value else d.nextAttempt;
       b == a.(deliveries := a.deliveries[k := Delivery(d.dep, d.revision, status, d.attempts + counted, due, None, None)])
  }

  /** The row is leased, and to this owner. */
  ghost predicate LeasedTo(db: Db, k: DeliveryKey, owner: Owner) {
    k in db.deliveries && db.deliveries[k].status == Sending && db.deliveries[k].owner == Some(owner)
  }

  lemma FinishMeans(db: Db, k: DeliveryKey, owner: Owner, status: DeliveryStatus, counted: nat, next: Option<int>)
    requires status != Sending
    ensures var o := Settle(db, k, owner, status, counted, next);
      && (o.reply.Ok? <==> LeasedTo(db, k, owner)) && (o.reply.Err? ==> o == Rolled(db, LeaseLost))
      && (o.reply.Ok? ==> Ended(db, o.db, k, owner, status, counted, next) && forall other :: !Holds(o.db, k, other))
  {
  }

  /** A failed delivery is given up exactly when the attempts read before, with this one, use up the limit. */
  lemma FailedMeans(db: Db, k: DeliveryKey, owner: Owner, attempts: nat, next: int, maxAttempts: nat)
    ensures var o := MarkFailed(db, k, owner, attempts, next, maxAttempts);
      && (o.reply.Ok? <==> maxAttempts >= 1 && LeasedTo(db, k, owner)) && (o.reply.Err? ==> o.db == db)
      && (o.reply.Ok? ==>
            if attempts + 1 >= maxAttempts then Ended(db, o.db, k, owner, Dead, 1, None)
            else Ended(db, o.db, k, owner, Pending, 1, Some(next)))
  {
  }

  /** A dead delivery starts again from nothing; nobody holds it. */
  lemma RetryMeans(db: Db, k: DeliveryKey, now: int)
    requires Inv(db)
    ensures var o := RetryDead(db, k, now);
      && (o.reply.Ok? <==> k in db.deliveries && db.deliveries[k].status == Dead) && (o.reply.Err? ==> o.db == db)
      && (o.reply.Ok? ==>
            && o.db == db.(deliveries := db.deliveries[k := db.deliveries[k].(status := Pending, attempts := 0, nextAttempt := now)])
            && forall owner :: !Holds(o.db, k, owner))
  {
  }
}
