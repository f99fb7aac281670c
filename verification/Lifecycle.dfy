/** internal/storage/generations.go, deployments.go, checkpoints.go and the generation marks of
    health.go: how operators and the daemon move deployments, and which worker generation is fenced. */
module Lifecycle {
  import opened Schema
  import opened Transactions

  // ---- Building blocks ------------------------------------------------------------------

  function Coalesce(kept: Option<int>, now: int): Option<int> {
    if kept.Some? then kept else Some(now)
  }

  /** Every current generation of the given deployments is retired at `now`. */
  function RetireAll(generations: map<GenKey, Generation>, deps: set<DeploymentId>, now: int): map<GenKey, Generation> {
    map k | k in generations ::
      if k.dep in deps && generations[k].status == Current
      then generations[k].(status := Retired, retiredAt := Some(now))
      else generations[k]
  }

  function EnsureHealth(db: Db, dep: DeploymentId, gen: nat, status: HealthStatus): Db {
    var row := if dep in db.health then db.health[dep].(gen := gen, status := status) else Health(gen, status, 0, false);
    db.(health := db.health[dep := row])
  }

  // ---- Launch snapshot and activation ---------------------------------------------------

  /** GetRuntimeDeployment: one read snapshot of what a worker will be told in its hello. */
  datatype Snapshot = Snapshot(
    dep: DeploymentId, artifact: string, configRevision: nat, activeGeneration: nat,
    state: Json, revision: nat, checkpoints: map<string, Json>)

  function ReadSnapshot(db: Db, dep: DeploymentId): Result<Snapshot> {
    if dep !in db.deployments then Err(NotFound) else
    var d := db.deployments[dep];
    Ok(Snapshot(dep, d.artifact, d.configRevision, d.activeGeneration, d.state, d.revision, CheckpointsOf(db, dep)))
  }

  predicate Expired(d: Deployment, now: int) {
    d.expiresAt.Some? && d.expiresAt.value <= now
  }

  /** ActivateGeneration: compare the snapshot, retire the old generation, open the next one. */
  function Activate(db: Db, s: Snapshot, fingerprint: string, token: Token, now: int): Outcome<nat> {
    if s.dep == "" || s.artifact == "" || s.configRevision < 1 || fingerprint == "" then Rolled(db, InvalidInput) else
    if s.dep !in db.deployments then Rolled(db, NotFound) else
    var d := db.deployments[s.dep];
    if d.status != Active || Expired(d, now) then Rolled(db, NotFound)
    else if d.configRevision != s.configRevision then Rolled(db, SnapshotChanged)
    else if d.artifact != s.artifact || d.revision != s.revision || d.activeGeneration != s.activeGeneration then
      Rolled(db, SnapshotChanged)
    else
      var prior := GenKey(s.dep, d.activeGeneration);
      var retired :=
        if d.activeGeneration > 0 && IsCurrent(db, prior)
        then db.generations[prior := db.generations[prior].(status := Retired, retiredAt := Some(now))]
        else db.generations;
      var next := LatestGeneration(db, s.dep) + 1;
      var row := Generation(NextGenerationRow(db), token, s.artifact, s.configRevision, fingerprint, Current, 0, None, None);
      var advanced := db.(generations := retired[GenKey(s.dep, next) := row],
                        deployments := db.deployments[s.dep := d.(activeGeneration := next)]);
      Outcome(EnsureHealth(advanced, s.dep, next, Starting), Ok(next))
  }

  /** RecoverGenerations: a new daemon process fences every worker of the old one. */
  function Recover(db: Db, now: int): Db {
    db.(
      generations := map k | k in db.generations ::
        if db.generations[k].status == Current
        then db.generations[k].(status := Retired, retiredAt := Coalesce(db.generations[k].retiredAt, now))
        else db.generations[k],
      deployments := map id | id in db.deployments ::
        if db.deployments[id].status == Active then db.deployments[id].(activeGeneration := 0) else db.deployments[id],
      health := map id | id in db.health ::
        if id in db.deployments && db.deployments[id].status == Active
        then db.health[id].(gen := 0, status := Starting) else db.health[id])
  }

  function MarkReady(db: Db, dep: DeploymentId, gen: nat, now: int): Outcome<()> {
    var key := GenKey(dep, gen);
    if dep == "" || gen < 1 then Rolled(db, InvalidInput)
    else if !IsCurrent(db, key) || db.generations[key].readyAt.Some? then Rolled(db, Fenced)
    else if dep !in db.health || db.health[dep].gen != gen then Rolled(db, Fenced)
    else
      Outcome(db.(generations := db.generations[key := db.generations[key].(readyAt := Some(now))],
                  health := db.health[dep := db.health[dep].(status := Starting)]), Ok(()))
  }

  /** MarkGenerationStopped retires the row but leaves `active_generation` alone. */
  function MarkStopped(db: Db, dep: DeploymentId, gen: nat, failed: bool, now: int): Outcome<()> {
    var key := GenKey(dep, gen);
    if dep == "" || gen < 1 then Rolled(db, InvalidInput)
    else if key !in db.generations then Rolled(db, NotFound)
    else
      var g := db.generations[key];
      var stopped := db.(generations := db.generations[key := g.(status := Retired, retiredAt := Coalesce(g.retiredAt, now))]);
      if dep in db.health && db.health[dep].gen == gen && !failed
      then Outcome(stopped.(health := db.health[dep := db.health[dep].(status := Stopped)]), Ok(()))
      else Outcome(stopped, Ok(()))
  }

  // ---- Operator transitions -------------------------------------------------------------

  datatype DeployInput = DeployInput(
    name: string, infoName: string, configHash: string, artifact: string, state: Json, threshold: nat,
    maxEvents: nat, retention: int, expiresAt: Option<int>, destinations: seq<Json>, expected: Option<nat>)

  predicate ValidDeploy(i: DeployInput) {
    && !Blank(i.name) && !Blank(i.infoName) && i.configHash != "" && i.state != ""
    && |i.destinations| > 0 && i.threshold >= 1 && 1 <= i.maxEvents <= 256 && i.retention > 0
    && forall d :: d in i.destinations ==> d != ""
  }

  function LatestBinding(bindings: map<BindingKey, Binding>, dep: DeploymentId, dest: nat): (m: nat)
    ensures forall k :: k in bindings && k.dep == dep && k.dest == dest ==> k.revision <= m
  {
    var revisions := set k | k in bindings && k.dep == dep && k.dest == dest :: k.revision;
    assert forall k :: k in bindings && k.dep == dep && k.dest == dest ==> k.revision in revisions;
    Highest(revisions)
  }

  function RetireBindings(bindings: map<BindingKey, Binding>, dep: DeploymentId): map<BindingKey, Binding> {
    map k | k in bindings :: if k.dep == dep then bindings[k].(retired := true) else bindings[k]
  }

  function NewBindingKey(bindings: map<BindingKey, Binding>, dep: DeploymentId, index: nat): BindingKey {
    BindingKey(dep, index + 1, LatestBinding(bindings, dep, index + 1) + 1)
  }

  function NewBindings(bindings: map<BindingKey, Binding>, dep: DeploymentId,
                       destinations: seq<Json>): map<BindingKey, Binding> {
    map i | 0 <= i < |destinations| :: NewBindingKey(bindings, dep, i) := Binding(destinations[i], false)
  }

  /** The deployment row one deploy writes, or the reason it writes none. */
  function DeployRow(db: Db, id: DeploymentId, i: DeployInput): Result<Deployment> {
    if i.name !in db.names then
      if i.expected.Some? then Err(StateConflict) else
      Ok(Deployment(i.name, Active, i.artifact, 1, i.configHash, i.threshold, i.retention, 0, i.state, 0, i.expiresAt))
    else if id !in db.deployments then Err(NotFound)
    else
      var d := db.deployments[id];
      if d.status == Archived then Err(InvalidStatus)
      else if i.expected != Some(d.revision) then Err(StateConflict)
      else Ok(d.(status := Active, artifact := i.artifact, configHash := i.configHash,
                 configRevision := d.configRevision + (if d.configHash != i.configHash then 1 else 0),
                 threshold := i.threshold, retention := i.retention, activeGeneration := 0,
                 state := i.state, revision := d.revision + 1, expiresAt := i.expiresAt))
  }

  /** Deploy: the row, the fence and the destinations change together. `newId` is the random id of a new deployment. */
  function Deploy(db: Db, newId: DeploymentId, i: DeployInput, now: int): Outcome<DeploymentId> {
    if !ValidDeploy(i) then Rolled(db, InvalidInput) else
    var id := if i.name in db.names then db.names[i.name] else newId;
    match DeployRow(db, id, i)
    case Err(error) => Rolled(db, error)
    case Ok(row) =>
      var named := db.(deployments := db.deployments[id := row], names := db.names[i.name := id]);
      var ensured := EnsureHealth(named, id, 0, Starting);
      Outcome(ensured.(generations := RetireAll(db.generations, {id}, now),
                       bindings := RetireBindings(db.bindings, id) + NewBindings(db.bindings, id, i.destinations)),
              Ok(id))
  }

  /** setDeploymentStatus, as PauseDeployment and ResumeDeployment call it. */
  function SetStatus(db: Db, id: DeploymentId, from: Status, to: Status, expires: Option<int>, now: int): Outcome<()> {
    if id !in db.deployments || db.deployments[id].status != from then Rolled(db, InvalidStatus)
    else
      var moved := db.(
        deployments := db.deployments[id := db.deployments[id].(status := to, activeGeneration := 0, expiresAt := expires)],
        generations := if from == Active then RetireAll(db.generations, {id}, now) else db.generations);
      Outcome(EnsureHealth(moved, id, 0, if to == Active then Starting else Stopped), Ok(()))
  }

  function Pause(db: Db, id: DeploymentId, now: int): Outcome<()> {
    SetStatus(db, id, Active, Inactive, None, now)
  }

  function Resume(db: Db, id: DeploymentId, expires: Option<int>, now: int): Outcome<()> {
    SetStatus(db, id, Inactive, Active, expires, now)
  }

  /** The write transaction of DeactivateDueDeployments. */
  function Expire(db: Db, now: int): Outcome<nat> {
    var due := set id | id in db.deployments && db.deployments[id].status == Active && Expired(db.deployments[id], now);
    Outcome(
      db.(
        generations := RetireAll(db.generations, due, now),
        deployments := map id | id in db.deployments ::
          if id in due then db.deployments[id].(status := Inactive, activeGeneration := 0) else db.deployments[id],
        health := map id | id in db.health ::
          if id in db.deployments && Expired(db.deployments[id], now) && (id in due || db.deployments[id].status == Inactive)
          then db.health[id].(gen := 0, status := Stopped) else db.health[id]),
      Ok(|due|))
  }

  /** Archiving does not reset `active_generation`: it relies on an inactive deployment having none. */
  function Archive(db: Db, id: DeploymentId, now: int): Outcome<()> {
    if id !in db.deployments || db.deployments[id].status != Inactive then Rolled(db, InvalidStatus)
    else
      Outcome(
        db.(deployments := db.deployments[id := db.deployments[id].(status := Archived, expiresAt := None)],
            generations := RetireAll(db.generations, {id}, now)),
        Ok(()))
  }

  predicate Queued(d: Delivery) {
    d.status == Pending || d.status == Sending
  }

  /** Everything the foreign keys cascade from one deployment row. */
  function DeleteDeployment(db: Db, id: DeploymentId): Db {
    Db(
      db.deployments - {id},
      map n | n in db.names && db.names[n] != id :: db.names[n],
      map k | k in db.generations && k.dep != id :: db.generations[k],
      map k | k in db.ledger && k.dep != id :: db.ledger[k],
      map k | k in db.checkpoints && k.dep != id :: db.checkpoints[k],
      map k | k in db.bindings && k.dep != id :: db.bindings[k],
      map o | o in db.events && db.events[o].dep != id :: db.events[o],
      map k | k in db.deliveries && db.deliveries[k].dep != id :: db.deliveries[k],
      db.health - {id},
      db.cursors)
  }

  /** PurgeDeploymentSafe. */
  function Purge(db: Db, id: DeploymentId, force: bool): Outcome<()> {
    if !force && exists k | k in db.deliveries ::
        k.outbox in db.events && db.events[k.outbox].dep == id && Queued(db.deliveries[k])
    then Rolled(db, QueuedDeliveries)
    else if id !in db.deployments || db.deployments[id].status != Archived then Rolled(db, InvalidStatus)
    else Outcome(DeleteDeployment(db, id), Ok(()))
  }

  /** An operator edit: compare and set on the revision, then fence the worker. */
  function ReplaceState(db: Db, id: DeploymentId, base: nat, state: Json, now: int): Outcome<nat> {
    if state == "" then Rolled(db, InvalidInput)
    else if id !in db.deployments then Rolled(db, NotFound)
    else
      var d := db.deployments[id];
      if d.status == Archived then Rolled(db, InvalidStatus)
      else if d.revision != base then Rolled(db, StateConflict)
      else
        var replaced := db.(
          deployments := db.deployments[id := d.(state := state, revision := d.revision + 1, activeGeneration := 0)],
          generations := RetireAll(db.generations, {id}, now));
        Outcome(EnsureHealth(replaced, id, 0, if d.status == Active then Starting else Stopped), Ok(base + 1))
  }

  function ClearCheckpoints(db: Db, id: DeploymentId, now: int): Outcome<nat> {
    if id == "" then Rolled(db, InvalidInput)
    else if id !in db.deployments then Rolled(db, NotFound)
    else if db.deployments[id].status != Inactive then Rolled(db, InvalidStatus)
    else
      var fenced := db.(
        deployments := db.deployments[id := db.deployments[id].(activeGeneration := 0)],
        generations := RetireAll(db.generations, {id}, now),
        checkpoints := map k | k in db.checkpoints && k.dep != id :: db.checkpoints[k]);
      Outcome(EnsureHealth(fenced, id, 0, Stopped), Ok(|set k | k in db.checkpoints && k.dep == id|))
  }
}
