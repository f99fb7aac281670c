/** The tables and the workers together: what every reachable world keeps. */
module WorldSafety {
  import opened Schema
  import opened Transactions
  import opened Lifecycle
  import opened Integrity
  import opened Writes
  import opened History
  import opened Protocol
  import opened ProtocolSafety

  // ---- What the tables hold for one worker ----------------------------------------------------

  function AckAt(key: GenKey, w: Worker, n: nat): Ack
    requires 1 <= n <= |w.sent|
  {
    Ack(key.dep, key.gen, n, w.sent[n - 1].hash, w.hello.revision + n, Accepted)
  }

  /** The receipts of a generation are those of the frames its worker sent, with consecutive revisions. */
  ghost predicate ReceiptsMatch(ledger: Ledger, key: GenKey, w: Worker) {
    forall t :: t in ledger && t.dep == key.dep && t.gen == key.gen ==>
      1 <= t.seqno <= w.applied <= |w.sent| && ledger[t].ack == AckAt(key, w, t.seqno) && ledger[t].hash == w.sent[t.seqno - 1].hash
  }

  ghost predicate RowMatches(gs: Generations, key: GenKey, w: Worker) {
    key in gs ==> gs[key].lastSeq == w.applied && gs[key].token == w.token
  }

  /** The durable state of an unfenced worker is what its applied frames amount to. */
  ghost predicate StateMatches(db: Db, key: GenKey, w: Worker) {
    IsCurrent(db, key) ==>
      && key.dep in db.deployments && w.applied <= |w.sent|
      && db.deployments[key.dep].revision == w.hello.revision + w.applied
      && db.deployments[key.dep].state == StateAt(w.hello.state, w.sent, w.applied)
      && CheckpointsOf(db, key.dep) == SourcesAt(w.durable, w.sent, w.applied)
  }

  /** The bindings the daemon listed for the frame in its hands are still the active ones. */
  ghost predicate BindingsMatch(db: Db, key: GenKey, w: Worker) {
    IsCurrent(db, key) && w.phase.Bound? && w.phase.frame.events != [] ==> w.phase.bindings == ActiveBindings(db, key.dep)
  }

  ghost predicate DurableOk(db: Db, key: GenKey, w: Worker) {
    && ReceiptsMatch(db.ledger, key, w)
    && RowMatches(db.generations, key, w)
    && StateMatches(db, key, w)
    && BindingsMatch(db, key, w)
  }

  /** A launch snapshot ages, but a revision it still shares with the tables means the same state;
      its checkpoints can only have been cleared, and not if it saw a generation that is still active. */
  ghost predicate SnapshotOk(db: Db, ids: set<DeploymentId>, seen: set<GenKey>, s: Snapshot) {
    && s.dep in ids
    && (s.activeGeneration > 0 ==> GenKey(s.dep, s.activeGeneration) in seen)
    && (s.dep in db.deployments ==>
          var d := db.deployments[s.dep];
          && s.revision <= d.revision
          && (s.revision == d.revision ==>
                && d.state == s.state
                && (CheckpointsOf(db, s.dep) == s.checkpoints || CheckpointsOf(db, s.dep) == map[])
                && (s.activeGeneration > 0 && d.activeGeneration == s.activeGeneration ==> CheckpointsOf(db, s.dep) == s.checkpoints)))
  }

  /** The checkpoints of a hello are those durable at its activation, or had been cleared meanwhile. */
  ghost predicate HelloOk(w: Worker) {
    && (w.durable == w.hello.checkpoints || w.durable == map[])
    && (w.hello.activeGeneration > 0 ==> w.durable == w.hello.checkpoints)
  }

  /** Everything known about one worker. */
  ghost predicate Sound(db: Db, key: GenKey, w: Worker) {
    WorkerOk(key, w) && HelloOk(w) && DurableOk(db, key, w)
  }

  ghost predicate WorkersOk(x: World) {
    forall k :: k in x.workers ==> k in x.sys.seen && WorkerOk(k, x.workers[k]) && HelloOk(x.workers[k])
  }

  ghost predicate TablesOk(x: World) {
    forall k :: k in x.workers ==> DurableOk(x.sys.db, k, x.workers[k])
  }

  ghost predicate LaunchesOk(x: World) {
    forall i :: 0 <= i < |x.launches| ==> SnapshotOk(x.sys.db, x.sys.ids, x.sys.seen, x.launches[i])
  }

  ghost predicate WorldOk(x: World) {
    SystemOk(x.sys) && WorkersOk(x) && TablesOk(x) && LaunchesOk(x)
  }

  // ---- Writes that only settle ----------------------------------------------------------------

  lemma SettlesKeepsDurable(a: Db, b: Db, key: GenKey, w: Worker)
    requires DurableOk(a, key, w) && Settles(a, b)
    ensures DurableOk(b, key, w)
  {
    assert IsCurrent(b, key) ==> IsCurrent(a, key);
  }

  lemma SettlesKeepsSnapshot(a: Db, b: Db, ids: set<DeploymentId>, more: set<DeploymentId>, seen: set<GenKey>, s: Snapshot)
    requires SnapshotOk(a, ids, seen, s) && SettlesVersions(a, b)
    requires b.deployments.Keys <= a.deployments.Keys + more && more !! ids
    ensures SnapshotOk(b, ids + more, seen, s)
  {
    if s.dep in b.deployments {
      assert s.dep in b.deployments.Keys && s.dep !in more;
      assert s.dep in a.deployments;
      assert Versioned(a, b, s.dep);
    }
  }

  lemma ExternalStep(x: World, write: Write)
    requires WorldOk(x) && Writes.External(write) && Allowed(x.sys, write)
    ensures WorldOk(x.(sys := Next(x.sys, write)))
  {
    var y := x.(sys := Next(x.sys, write));
    NextKeeps(x.sys, write);
    assert write.DeployOne? ==> write.newId !in x.sys.db.deployments.Keys;
    ExternalSettles(x.sys.db, write);
    forall k | k in y.workers ensures DurableOk(y.sys.db, k, y.workers[k]) {
      SettlesKeepsDurable(x.sys.db, y.sys.db, k, x.workers[k]);
    }
    forall i | 0 <= i < |y.launches| ensures SnapshotOk(y.sys.db, y.sys.ids, y.sys.seen, y.launches[i]) {
      SettlesKeepsSnapshot(x.sys.db, y.sys.db, x.sys.ids, Brings(write), x.sys.seen, x.launches[i]);
    }
  }

  // ---- Local steps and restarts -----------------------------------------------------------------

  /** What a local step may change as far as the tables are concerned. */
  ghost predicate Remembers(db: Db, key: GenKey, w: Worker, v: Worker) {
    && v.token == w.token && v.hello == w.hello && v.durable == w.durable && v.applied == w.applied
    && (v.sent == w.sent || (v.sent != [] && v.sent[..|v.sent| - 1] == w.sent))
    && (v.phase.Bound? ==> v.phase == w.phase || v.phase.bindings == ActiveBindings(db, key.dep) || v.phase.frame.events == [])
  }

  lemma LocalRemembers(db: Db, key: GenKey, w: Worker, s: Step)
    requires Local(s)
    ensures Remembers(db, key, w, LocalNext(db, key, w, s))
  {
    if s.Commit? {
      SubmitRemembers(db, key, w, s.tx, s.send);
    } else if s.Resend? || s.AckReady? {
      if w.inflight.Some? {
        WaitRemembers(db, key, w, s);
      }
    } else {
      LoopRemembers(db, key, w, s);
    }
  }

  lemma WaitRemembers(db: Db, key: GenKey, w: Worker, s: Step)
    requires (s.Resend? || s.AckReady?) && w.inflight.Some?
    ensures Remembers(db, key, w, LocalNext(db, key, w, s))
  {
  }

  lemma LoopRemembers(db: Db, key: GenKey, w: Worker, s: Step)
    requires Local(s) && !s.Commit? && !s.Resend? && !s.AckReady?
    ensures Remembers(db, key, w, LocalNext(db, key, w, s))
  {
    hide Receive, ActiveBindings, Genuine, Accepts;
    if s.Take? && w.up != [] {
      TakeRemembers(db, key, w);
    }
  }

  lemma TakeRemembers(db: Db, key: GenKey, w: Worker)
    requires w.up != []
    ensures Remembers(db, key, w, Accepts(db, key, w))
  {
  }

  lemma SubmitRemembers(db: Db, key: GenKey, w: Worker, tx: Tx, send: SendOutcome)
    ensures Remembers(db, key, w, Submit(key, w, tx, send))
  {
    hide SystemOk, BasicOk, CalmOk;
  }

  lemma RemembersKeeps(db: Db, key: GenKey, w: Worker, v: Worker)
    requires DurableOk(db, key, w) && HelloOk(w) && Remembers(db, key, w, v) && w.applied <= |w.sent|
    ensures DurableOk(db, key, v) && HelloOk(v)
  {
    if v.sent != w.sent {
      assert v.sent == w.sent + [v.sent[|w.sent|]];
      SourcesAppend(w.durable, w.sent, v.sent[|w.sent|], w.applied);
    }
  }

  lemma LocalStep(x: World, s: Step)
    requires WorldOk(x) && Local(s) && Enabled(x, s)
    ensures s.key in x.workers && WorldOk(Happens(x, s))
  {
    var w := x.workers[s.key];
    var v := LocalNext(x.sys.db, s.key, w, s);
    LocalKeeps(x.sys.db, s.key, w, s);
    LocalRemembers(x.sys.db, s.key, w, s);
    RemembersKeeps(x.sys.db, s.key, w, v);
    OneWorker(x, s.key, v);
    assert Happens(x, s) == x.(workers := x.workers[s.key := v]);
  }

  lemma OneWorker(x: World, key: GenKey, v: Worker)
    requires WorldOk(x) && key in x.workers && Sound(x.sys.db, key, v)
    ensures WorldOk(x.(workers := x.workers[key := v]))
  {
    hide BasicOk, CalmOk, ReceiptsMatch, RowMatches, StateMatches, BindingsMatch;
  }

  lemma RestartStep(x: World, now: int)
    requires WorldOk(x)
    ensures WorldOk(Happens(x, Restart(now)))
  {
    var mid := x.(sys := Next(x.sys, RecoverDaemon(now)));
    ExternalStep(x, RecoverDaemon(now));
    var y := Happens(x, Restart(now));
    forall k | k in y.workers
      ensures WorkerOk(k, y.workers[k]) && HelloOk(y.workers[k]) && DurableOk(y.sys.db, k, y.workers[k])
    {
      HaltKeeps(k, mid.workers[k], Halted);
      RemembersKeeps(mid.sys.db, k, mid.workers[k], y.workers[k]);
    }
  }

  // ---- Launches ---------------------------------------------------------------------------------

  lemma ObserveStep(x: World, dep: DeploymentId)
    requires WorldOk(x)
    ensures WorldOk(Happens(x, Observe(dep)))
  {
    hide BasicOk, CalmOk;
    if dep in x.sys.db.deployments {
      ReadOk(x.sys, dep);
    }
  }

  lemma ReadOk(s: System, dep: DeploymentId)
    requires SystemOk(s) && dep in s.db.deployments
    ensures SnapshotOk(s.db, s.ids, s.seen, ReadSnapshot(s.db, dep).value)
  {
    assert dep in s.db.deployments.Keys;
    assert DeploymentOk(s.db.generations, dep, s.db.deployments[dep]);
    if s.db.deployments[dep].activeGeneration > 0 {
      assert GenKey(dep, s.db.deployments[dep].activeGeneration) in s.db.generations.Keys;
    }
  }

  /** Opening `key` leaves every other generation's view of the tables as fencing left it. */
  lemma OpeningKeepsDurable(fenced: Db, b: Db, key: GenKey, k: GenKey, w: Worker)
    requires DurableOk(fenced, k, w) && k != key && (IsCurrent(fenced, k) ==> k.dep != key.dep)
    requires key in b.generations && key.dep in fenced.deployments && key.dep in b.deployments
    requires b.generations == fenced.generations[key := b.generations[key]]
    requires b.deployments == fenced.deployments[key.dep := b.deployments[key.dep]]
    requires b.ledger == fenced.ledger && b.checkpoints == fenced.checkpoints && b.bindings == fenced.bindings
    ensures DurableOk(b, k, w)
  {
  }

  lemma OpeningKeepsSnapshot(fenced: Db, b: Db, ids: set<DeploymentId>, seen: set<GenKey>, key: GenKey, s: Snapshot)
    requires SnapshotOk(fenced, ids, seen, s) && key !in seen && key.dep in fenced.deployments
    requires b.deployments == fenced.deployments[key.dep := fenced.deployments[key.dep].(activeGeneration := key.gen)]
    requires b.checkpoints == fenced.checkpoints
    ensures SnapshotOk(b, ids, seen + {key}, s)
  {
    SameCheckpoints(fenced, b, s.dep);
  }

  /** What an activation found of the snapshot it accepted. */
  ghost predicate SnapshotHeld(db: Db, s: Snapshot) {
    && s.dep in db.deployments && db.deployments[s.dep].state == s.state && db.deployments[s.dep].revision == s.revision
    && (CheckpointsOf(db, s.dep) == s.checkpoints || CheckpointsOf(db, s.dep) == map[])
    && (s.activeGeneration > 0 ==> CheckpointsOf(db, s.dep) == s.checkpoints)
  }

  /** The launch snapshot the activation accepted was current at that instant. */
  lemma ActivationIsFresh(db: Db, ids: set<DeploymentId>, seen: set<GenKey>, s: Snapshot, fingerprint: string,
                          token: Token, now: int)
    requires Inv(db) && SnapshotOk(db, ids, seen, s) && Activate(db, s, fingerprint, token, now).reply.Ok?
    ensures SnapshotHeld(db, s)
  {
    ActivateOpens(db, s, fingerprint, token, now);
  }

  lemma GreetOk(key: GenKey, token: Token, s: Snapshot, durable: map<string, Json>)
    ensures WorkerOk(key, Greet(key.gen, token, s, durable))
  {
  }

  /** The world's rows once `key` has been opened for snapshot `s`. */
  ghost predicate Opened(db: Db, fenced: Db, b: Db, key: GenKey, s: Snapshot, token: Token) {
    && key !in db.generations && key.dep == s.dep && key in b.generations
    && b.generations[key].lastSeq == 0 && b.generations[key].token == token
    && b.generations == fenced.generations[key := b.generations[key]]
    && s.dep in fenced.deployments && s.dep in db.deployments
    && b.deployments == fenced.deployments[s.dep := fenced.deployments[s.dep].(activeGeneration := key.gen)]
    && fenced.deployments[s.dep].revision == db.deployments[s.dep].revision
    && fenced.deployments[s.dep].state == db.deployments[s.dep].state
    && b.ledger == fenced.ledger == db.ledger && b.bindings == fenced.bindings && b.checkpoints == fenced.checkpoints == db.checkpoints
    && (forall k :: IsCurrent(fenced, k) ==> k.dep != s.dep)
  }

  lemma ActivationOpened(db: Db, s: Snapshot, fingerprint: string, token: Token, now: int)
    requires Inv(db) && Activate(db, s, fingerprint, token, now).reply.Ok?
    ensures var key := GenKey(s.dep, Activate(db, s, fingerprint, token, now).reply.value);
      && s.dep in db.deployments
      && Opened(db, FencedOff(db, s.dep, now), Activate(db, s, fingerprint, token, now).db, key, s, token)
      && Settles(db, FencedOff(db, s.dep, now))
      && FencedOff(db, s.dep, now).deployments.Keys == db.deployments.Keys
  {
    ActivationShape(db, s, fingerprint, token, now);
  }

  lemma NewWorkerDurable(db: Db, fenced: Db, b: Db, key: GenKey, s: Snapshot, token: Token)
    requires LedgerOk(db.deployments, db.generations, db.ledger) && Opened(db, fenced, b, key, s, token)
    requires db.deployments[s.dep].state == s.state && db.deployments[s.dep].revision == s.revision
    ensures DurableOk(b, key, Greet(key.gen, token, s, CheckpointsOf(b, s.dep)))
  {
    forall t | t in b.ledger ensures GenKey(t.dep, t.gen) != key {
      assert ReceiptOk(db.deployments, db.generations, t, db.ledger[t]);
    }
  }

  lemma OldWorkerDurable(db: Db, fenced: Db, b: Db, key: GenKey, s: Snapshot, token: Token, k: GenKey, w: Worker)
    requires Opened(db, fenced, b, key, s, token) && Settles(db, fenced) && DurableOk(db, k, w) && k != key
    ensures DurableOk(b, k, w)
  {
    SettlesKeepsDurable(db, fenced, k, w);
    OpeningKeepsDurable(fenced, b, key, k, w);
  }

  lemma OldSnapshot(db: Db, fenced: Db, b: Db, ids: set<DeploymentId>, seen: set<GenKey>, key: GenKey, s: Snapshot,
                    token: Token, earlier: Snapshot)
    requires Opened(db, fenced, b, key, s, token) && Settles(db, fenced) && fenced.deployments.Keys == db.deployments.Keys
    requires SnapshotOk(db, ids, seen, earlier) && key !in seen
    ensures SnapshotOk(b, ids, seen + {key}, earlier)
  {
    SettlesKeepsSnapshot(db, fenced, ids, {}, seen, earlier);
    assert ids + {} == ids;
    OpeningKeepsSnapshot(fenced, b, ids, seen, key, earlier);
  }

  lemma LaunchTables(x: World, y: World, fenced: Db, key: GenKey, s: Snapshot, token: Token)
    requires TablesOk(x) && Settles(x.sys.db, fenced)
    requires LedgerOk(x.sys.db.deployments, x.sys.db.generations, x.sys.db.ledger)
    requires Opened(x.sys.db, fenced, y.sys.db, key, s, token)
    requires x.sys.db.deployments[s.dep].state == s.state && x.sys.db.deployments[s.dep].revision == s.revision
    requires y.workers == x.workers[key := Greet(key.gen, token, s, CheckpointsOf(y.sys.db, s.dep))]
    ensures TablesOk(y)
  {
    NewWorkerDurable(x.sys.db, fenced, y.sys.db, key, s, token);
    forall k | k in y.workers ensures DurableOk(y.sys.db, k, y.workers[k]) {
      if k != key {
        OldWorkerDurable(x.sys.db, fenced, y.sys.db, key, s, token, k, x.workers[k]);
      }
    }
  }

  lemma LaunchLaunches(x: World, y: World, fenced: Db, key: GenKey, s: Snapshot, token: Token)
    requires LaunchesOk(x) && key !in x.sys.seen && Settles(x.sys.db, fenced)
    requires fenced.deployments.Keys == x.sys.db.deployments.Keys
    requires Opened(x.sys.db, fenced, y.sys.db, key, s, token)
    requires y.sys.ids == x.sys.ids && y.sys.seen == x.sys.seen + {key} && y.launches == x.launches
    ensures LaunchesOk(y)
  {
    forall i | 0 <= i < |y.launches| ensures SnapshotOk(y.sys.db, y.sys.ids, y.sys.seen, y.launches[i]) {
      OldSnapshot(x.sys.db, fenced, y.sys.db, x.sys.ids, x.sys.seen, key, s, token, x.launches[i]);
    }
  }

  lemma LaunchWorkers(x: World, y: World, key: GenKey, w: Worker)
    requires WorkersOk(x) && WorkerOk(key, w) && HelloOk(w)
    requires y.sys.seen == x.sys.seen + {key} && y.workers == x.workers[key := w]
    ensures WorkersOk(y)
  {
  }

  /** The world after the launch opened `key`, given what that did to the tables. */
  lemma Launched(x: World, y: World, s: Snapshot, fenced: Db, key: GenKey, token: Token)
    requires SystemOk(y.sys) && WorkersOk(x) && TablesOk(x) && LaunchesOk(x) && key !in x.sys.seen && Settles(x.sys.db, fenced)
    requires LedgerOk(x.sys.db.deployments, x.sys.db.generations, x.sys.db.ledger)
    requires fenced.deployments.Keys == x.sys.db.deployments.Keys && Opened(x.sys.db, fenced, y.sys.db, key, s, token)
    requires SnapshotHeld(x.sys.db, s)
    requires y.sys.ids == x.sys.ids && y.sys.seen == x.sys.seen + {key} && y.launches == x.launches
    requires y.workers == x.workers[key := Greet(key.gen, token, s, CheckpointsOf(y.sys.db, s.dep))]
    ensures WorldOk(y)
  {
    LaunchGreets(x, y, s, fenced, key, token);
    LaunchTables(x, y, fenced, key, s, token);
    LaunchLaunches(x, y, fenced, key, s, token);
  }

  lemma LaunchGreets(x: World, y: World, s: Snapshot, fenced: Db, key: GenKey, token: Token)
    requires WorkersOk(x) && SnapshotHeld(x.sys.db, s) && Opened(x.sys.db, fenced, y.sys.db, key, s, token)
    requires y.sys.seen == x.sys.seen + {key}
    requires y.workers == x.workers[key := Greet(key.gen, token, s, CheckpointsOf(y.sys.db, s.dep))]
    ensures WorkersOk(y)
  {
    SameCheckpoints(x.sys.db, y.sys.db, s.dep);
    GreetOk(key, token, s, CheckpointsOf(y.sys.db, s.dep));
    LaunchWorkers(x, y, key, y.workers[key]);
  }

  lemma LaunchHappens(x: World, s: Step)
    requires s.Launch? && s.index < |x.launches|
    requires Activate(x.sys.db, x.launches[s.index], s.fingerprint, s.newToken, s.now).reply.Ok?
    ensures var snapshot := x.launches[s.index];
      var key := GenKey(snapshot.dep, Activate(x.sys.db, snapshot, s.fingerprint, s.newToken, s.now).reply.value);
      var y := Happens(x, s);
      && y.sys == Next(x.sys, OpenGeneration(snapshot, s.fingerprint, s.newToken, s.now)) && y.launches == x.launches
      && y.workers == x.workers[key := Greet(key.gen, s.newToken, snapshot, CheckpointsOf(y.sys.db, snapshot.dep))]
  {
  }

  lemma OpensSystem(s: System, snapshot: Snapshot, fingerprint: string, token: Token, now: int)
    requires Activate(s.db, snapshot, fingerprint, token, now).reply.Ok?
    ensures var t := Next(s, OpenGeneration(snapshot, fingerprint, token, now));
      && t.db == Activate(s.db, snapshot, fingerprint, token, now).db && t.ids == s.ids
      && t.seen == s.seen + {GenKey(snapshot.dep, Activate(s.db, snapshot, fingerprint, token, now).reply.value)}
  {
  }

  lemma LaunchOpens(x: World, s: Step, y: World)
    requires WorldOk(x) && s.Launch? && s.index < |x.launches| && y == Happens(x, s) && SystemOk(y.sys)
    requires Activate(x.sys.db, x.launches[s.index], s.fingerprint, s.newToken, s.now).reply.Ok?
    ensures WorldOk(y)
  {
    var snapshot, db := x.launches[s.index], x.sys.db;
    var key := GenKey(snapshot.dep, Activate(db, snapshot, s.fingerprint, s.newToken, s.now).reply.value);
    LaunchHappens(x, s);
    OpensSystem(x.sys, snapshot, s.fingerprint, s.newToken, s.now);
    ActivationOpened(db, snapshot, s.fingerprint, s.newToken, s.now);
    ActivationIsFresh(db, x.sys.ids, x.sys.seen, snapshot, s.fingerprint, s.newToken, s.now);
    ActivationKeepsOpened(db, snapshot, s.fingerprint, s.newToken, s.now, x.sys.ids, x.sys.seen);
    Launched(x, y, snapshot, FencedOff(db, snapshot.dep, s.now), key, s.newToken);
  }

  lemma LaunchRefused(x: World, s: Step)
    requires s.Launch? && s.index < |x.launches|
    requires Activate(x.sys.db, x.launches[s.index], s.fingerprint, s.newToken, s.now).reply.Err?
    ensures Happens(x, s) == x
  {
    RefusedActivation(x.sys.db, x.launches[s.index], s.fingerprint, s.newToken, s.now);
  }

  lemma LaunchSystem(x: World, s: Step)
    requires SystemOk(x.sys) && s.Launch? && s.index < |x.launches| && Happenable(x, s)
    requires Activate(x.sys.db, x.launches[s.index], s.fingerprint, s.newToken, s.now).reply.Ok?
    ensures SystemOk(Happens(x, s).sys)
  {
    NextKeeps(x.sys, OpenGeneration(x.launches[s.index], s.fingerprint, s.newToken, s.now));
    LaunchHappens(x, s);
  }

  lemma LaunchStep(x: World, s: Step)
    requires WorldOk(x) && s.Launch? && s.index < |x.launches| && Happenable(x, s)
    ensures WorldOk(Happens(x, s))
  {
    if Activate(x.sys.db, x.launches[s.index], s.fingerprint, s.newToken, s.now).reply.Ok? {
      LaunchSystem(x, s);
      LaunchOpens(x, s, Happens(x, s));
    } else {
      LaunchRefused(x, s);
    }
  }

  // ---- The store's answer -------------------------------------------------------------------------

  /** The receipt a replayed frame is answered with is the one its worker expects. */
  lemma ReplayAnswers(db: Db, key: GenKey, w: Worker, f: Frame, now: int)
    requires ReceiptsMatch(db.ledger, key, w) && f.dep == key.dep && f.gen == key.gen
    requires Apply(db, f, now).reply.Ok? && !TakesEffect(db, f, now)
    ensures 1 <= f.seqno <= w.applied <= |w.sent| && Apply(db, f, now).reply.value == AckAt(key, w, f.seqno)
    ensures Apply(db, f, now).db == db
  {
    assert db.ledger[f.Key()].ack == AckAt(key, w, f.seqno);
  }

  /** The worker once the daemon holds the ACK of the frame it was binding. */
  ghost function Answered(w: Worker, a: Ack, applied: nat): Worker {
    w.(phase := Answering(a), applied := applied)
  }

  lemma AnsweredCalm(w: Worker, a: Ack, applied: nat)
    requires CalmOk(w) && w.phase.Bound? && a.seqno == w.phase.frame.seqno
    ensures CalmOk(Answered(w, a, applied))
  {
    assert Pipeline(Answered(w, a, applied)) == Pipeline(w);
  }

  lemma AnsweredReplay(key: GenKey, w: Worker, a: Ack)
    requires WorkerOk(key, w) && w.phase.Bound? && AckOk(key, w, a) && a.seqno == w.phase.frame.seqno
    ensures WorkerOk(key, Answered(w, a, w.applied))
  {
    AnsweredAgain(key, w, a);
    if !w.abandoned {
      AnsweredCalm(w, a, w.applied);
    }
  }

  lemma AnsweredAgain(key: GenKey, w: Worker, a: Ack)
    requires BasicOk(key, w) && AckOk(key, w, a)
    ensures BasicOk(key, Answered(w, a, w.applied))
  {
  }

  lemma AnsweredEffect(key: GenKey, w: Worker, a: Ack)
    requires WorkerOk(key, w) && w.phase.Bound?
    requires w.phase.frame.seqno == w.applied + 1 && w.phase.frame.base == w.hello.revision + w.applied
    requires w.applied < |w.sent| && a == AckAt(key, w, w.applied + 1)
    ensures WorkerOk(key, Answered(w, a, w.applied + 1))
  {
    AnsweredBasic(key, w, a);
    if !w.abandoned {
      AnsweredCalm(w, a, w.applied + 1);
    }
  }

  lemma AnsweredBasic(key: GenKey, w: Worker, a: Ack)
    requires BasicOk(key, w) && w.phase.Bound?
    requires w.phase.frame.seqno == w.applied + 1 && w.phase.frame.base == w.hello.revision + w.applied
    requires w.applied < |w.sent| && a == AckAt(key, w, w.applied + 1)
    ensures BasicOk(key, Answered(w, a, w.applied + 1))
  {
  }

  // ---- A frame that takes effect ------------------------------------------------------------------

  lemma HeldFrame(key: GenKey, w: Worker)
    requires SentOk(key, w) && PipesOk(w) && w.phase.Bound?
    ensures var f := w.phase.frame; 1 <= f.seqno <= |w.sent| && f == w.sent[f.seqno - 1]
    ensures Genuine(key, w, w.phase.frame)
  {
    assert Member(w, w.phase.frame);
  }

  /** A frame that takes effect is the next one of its generation. */
  lemma EffectIsNext(db: Db, key: GenKey, w: Worker, f: Frame, now: int)
    requires RowMatches(db.generations, key, w) && StateMatches(db, key, w)
    requires f.dep == key.dep && f.gen == key.gen && TakesEffect(db, f, now)
    ensures IsCurrent(db, key) && key.dep in db.deployments
    ensures f.seqno == w.applied + 1 && f.base == w.hello.revision + w.applied == db.deployments[key.dep].revision
  {
    EffectShape(db, f, now);
  }

  lemma AdvanceCheckpoints(a: Db, b: Db, f: Frame, m: map<string, Json>)
    requires Lists(f.checkpoints, m) && b.checkpoints == a.checkpoints + CheckpointRows(f)
    ensures CheckpointsOf(b, f.dep) == CheckpointsOf(a, f.dep) + m
  {
    forall s
      ensures s in CheckpointsOf(b, f.dep) <==> s in CheckpointsOf(a, f.dep) || s in m
      ensures s in CheckpointsOf(b, f.dep) ==> CheckpointsOf(b, f.dep)[s] == if s in m then m[s] else CheckpointsOf(a, f.dep)[s]
    {
      AdvanceCheckpoint(a, b, f, m, s);
    }
    MergedMap(CheckpointsOf(b, f.dep), CheckpointsOf(a, f.dep), m);
  }

  lemma MergedMap(whole: map<string, Json>, left: map<string, Json>, right: map<string, Json>)
    requires forall s :: s in whole <==> s in left || s in right
    requires forall s :: s in whole ==> whole[s] == if s in right then right[s] else left[s]
    ensures whole == left + right
  {
  }

  lemma AdvanceCheckpoint(a: Db, b: Db, f: Frame, m: map<string, Json>, s: string)
    requires Lists(f.checkpoints, m) && b.checkpoints == a.checkpoints + CheckpointRows(f)
    ensures s in CheckpointsOf(b, f.dep) <==> s in CheckpointsOf(a, f.dep) || s in m
    ensures s in CheckpointsOf(b, f.dep) ==> CheckpointsOf(b, f.dep)[s] == if s in m then m[s] else CheckpointsOf(a, f.dep)[s]
  {
    RowsListed(f, m);
    SourceListed(a, f.dep, s);
    SourceListed(b, f.dep, s);
  }

  lemma SourceListed(db: Db, dep: DeploymentId, s: string)
    ensures s in CheckpointsOf(db, dep) <==> CheckpointKey(dep, s) in db.checkpoints
    ensures s in CheckpointsOf(db, dep) ==> CheckpointsOf(db, dep)[s] == db.checkpoints[CheckpointKey(dep, s)].value
  {
    if s in CheckpointsOf(db, dep) {
      var k :| k in db.checkpoints && k.dep == dep && k.source == s;
      assert k == CheckpointKey(dep, s);
    }
    if CheckpointKey(dep, s) in db.checkpoints {
      assert CheckpointKey(dep, s).source == s;
    }
  }

  lemma RowsListed(f: Frame, m: map<string, Json>)
    requires Lists(f.checkpoints, m)
    ensures forall s :: s in m <==> CheckpointKey(f.dep, s) in CheckpointRows(f)
    ensures forall s :: s in m ==> CheckpointRows(f)[CheckpointKey(f.dep, s)].value == m[s]
  {
    forall s | s in m ensures CheckpointKey(f.dep, s) in CheckpointRows(f) && CheckpointRows(f)[CheckpointKey(f.dep, s)].value == m[s] {
      assert Mutation(s, m[s]) in f.checkpoints;
    }
  }

  /** The tables around the outbox after a frame took effect. */
  ghost predicate Applied(a: Db, b: Db, key: GenKey, f: Frame) {
    && f.dep == key.dep && f.gen == key.gen && DistinctSources(f.checkpoints)
    && key in a.generations && key.dep in a.deployments
    && b == Advance(a, f).(events := b.events, deliveries := b.deliveries)
  }

  lemma OwnReceipts(a: Db, b: Db, key: GenKey, w: Worker, f: Frame)
    requires ReceiptsMatch(a.ledger, key, w) && Applied(a, b, key, f)
    requires f.seqno == w.applied + 1 && w.applied < |w.sent|
    requires f.hash == w.sent[w.applied].hash && f.base == w.hello.revision + w.applied
    ensures ReceiptsMatch(b.ledger, key, Answered(w, AckFor(f), w.applied + 1))
  {
  }

  lemma OwnState(a: Db, b: Db, key: GenKey, w: Worker, f: Frame)
    requires RowMatches(a.generations, key, w) && StateMatches(a, key, w) && Applied(a, b, key, f) && IsCurrent(a, key)
    requires f.seqno == w.applied + 1 && w.applied < |w.sent| && f.base == w.hello.revision + w.applied
    requires f.next == w.sent[w.applied].next && Lists(f.checkpoints, w.sent[w.applied].checkpoints)
    ensures RowMatches(b.generations, key, Answered(w, AckFor(f), w.applied + 1))
    ensures StateMatches(b, key, Answered(w, AckFor(f), w.applied + 1))
  {
    AdvanceCheckpoints(a, b, f, w.sent[w.applied].checkpoints);
  }

  lemma OwnDurable(a: Db, b: Db, key: GenKey, w: Worker, f: Frame)
    requires DurableOk(a, key, w) && Applied(a, b, key, f) && IsCurrent(a, key)
    requires f.seqno == w.applied + 1 && w.applied < |w.sent| && f.base == w.hello.revision + w.applied
    requires f.hash == w.sent[w.applied].hash
    requires f.next == w.sent[w.applied].next && Lists(f.checkpoints, w.sent[w.applied].checkpoints)
    ensures DurableOk(b, key, Answered(w, AckFor(f), w.applied + 1))
  {
    OwnReceipts(a, b, key, w, f);
    OwnState(a, b, key, w, f);
  }

  lemma OthersDurable(a: Db, b: Db, key: GenKey, f: Frame, k: GenKey, w: Worker)
    requires DurableOk(a, k, w) && Applied(a, b, key, f) && k != key && (IsCurrent(a, k) ==> k.dep != key.dep)
    ensures DurableOk(b, k, w)
  {
    if IsCurrent(a, k) {
      OtherCheckpoints(a, b, f, k.dep);
    }
  }

  lemma OtherCheckpoints(a: Db, b: Db, f: Frame, dep: DeploymentId)
    requires DistinctSources(f.checkpoints) && b.checkpoints == a.checkpoints + CheckpointRows(f) && dep != f.dep
    ensures CheckpointsOf(b, dep) == CheckpointsOf(a, dep)
  {
    SameCheckpoints(a, b, dep);
  }

  lemma OldSnapshotApplied(a: Db, b: Db, key: GenKey, f: Frame, ids: set<DeploymentId>, seen: set<GenKey>, s: Snapshot)
    requires SnapshotOk(a, ids, seen, s) && Applied(a, b, key, f) && f.base == a.deployments[key.dep].revision
    ensures SnapshotOk(b, ids, seen, s)
  {
    if s.dep != key.dep {
      OtherCheckpoints(a, b, f, s.dep);
    }
  }

  // ---- The store step -----------------------------------------------------------------------------

  /** The daemon's frame is the store's view of the wire frame in its hands. */
  ghost predicate Hands(w: Worker, f: Frame) {
    && w.phase.Bound? && f == StoreFrame(w.phase.frame, f.checkpoints, if f.events == [] then [] else f.events[0].deliveries)
    && Lists(f.checkpoints, w.phase.frame.checkpoints)
  }

  lemma HandsKnown(key: GenKey, w: Worker, f: Frame)
    requires SentOk(key, w) && PipesOk(w) && Hands(w, f)
    ensures f.dep == key.dep && f.gen == key.gen && f.token == w.token && 1 <= f.seqno <= |w.sent|
    ensures f.seqno == w.phase.frame.seqno && f.base == w.phase.frame.base
    ensures var sent := w.sent[f.seqno - 1];
      f.hash == sent.hash && f.base == sent.base && f.next == sent.next && Lists(f.checkpoints, sent.checkpoints)
  {
    HeldFrame(key, w);
  }

  lemma EffectApplied(db: Db, key: GenKey, f: Frame, now: int)
    requires TakesEffect(db, f, now) && f.dep == key.dep && f.gen == key.gen
    ensures Applied(db, Apply(db, f, now).db, key, f) && Apply(db, f, now).reply == Ok(AckFor(f))
  {
    EffectShape(db, f, now);
  }

  lemma EffectFacts(db: Db, key: GenKey, w: Worker, f: Frame, now: int)
    requires SentOk(key, w) && PipesOk(w) && RowMatches(db.generations, key, w) && StateMatches(db, key, w)
    requires Hands(w, f) && TakesEffect(db, f, now)
    ensures w.applied < |w.sent| && IsCurrent(db, key) && f.seqno == w.applied + 1
    ensures f.dep == key.dep && f.gen == key.gen && key.dep in db.deployments
    ensures f.base == w.hello.revision + w.applied == db.deployments[key.dep].revision
  {
    HandsKnown(key, w, f);
    EffectIsNext(db, key, w, f, now);
  }

  /** The worker whose frame took effect, given what that left in the tables. */
  lemma EffectKeeps(a: Db, b: Db, key: GenKey, w: Worker, f: Frame)
    requires WorkerOk(key, w) && DurableOk(a, key, w) && Hands(w, f) && Applied(a, b, key, f) && IsCurrent(a, key)
    requires w.applied < |w.sent| && f.seqno == w.applied + 1 && f.base == w.hello.revision + w.applied
    ensures var v := Answered(w, AckFor(f), w.applied + 1); WorkerOk(key, v) && DurableOk(b, key, v)
  {
    HandsKnown(key, w, f);
    OwnDurable(a, b, key, w, f);
    AnsweredEffect(key, w, AckFor(f));
  }

  lemma TablesApplied(x: World, y: World, key: GenKey, f: Frame, v: Worker)
    requires SystemOk(x.sys) && TablesOk(x) && key in x.workers && IsCurrent(x.sys.db, key)
    requires Applied(x.sys.db, y.sys.db, key, f)
    requires DurableOk(y.sys.db, key, v) && y.workers == x.workers[key := v]
    ensures TablesOk(y)
  {
    forall k | k in y.workers ensures DurableOk(y.sys.db, k, y.workers[k]) {
      if k != key {
        if IsCurrent(x.sys.db, k) && k.dep == key.dep {
          OneCurrent(x.sys, k, key);
        }
        OthersDurable(x.sys.db, y.sys.db, key, f, k, x.workers[k]);
      }
    }
  }

  lemma LaunchesApplied(x: World, y: World, key: GenKey, f: Frame)
    requires LaunchesOk(x) && Applied(x.sys.db, y.sys.db, key, f) && f.base == x.sys.db.deployments[key.dep].revision
    requires y.sys.ids == x.sys.ids && y.sys.seen == x.sys.seen && y.launches == x.launches
    ensures LaunchesOk(y)
  {
    forall i | 0 <= i < |y.launches| ensures SnapshotOk(y.sys.db, y.sys.ids, y.sys.seen, y.launches[i]) {
      OldSnapshotApplied(x.sys.db, y.sys.db, key, f, x.sys.ids, x.sys.seen, x.launches[i]);
    }
  }

  lemma WorkersApplied(x: World, y: World, key: GenKey, v: Worker)
    requires WorkersOk(x) && key in x.workers && WorkerOk(key, v) && HelloOk(v)
    requires y.sys.seen == x.sys.seen && y.workers == x.workers[key := v]
    ensures WorkersOk(y)
  {
  }

  lemma AnsweredDurable(db: Db, key: GenKey, w: Worker, a: Ack)
    requires DurableOk(db, key, w)
    ensures DurableOk(db, key, Answered(w, a, w.applied))
  {
  }

  lemma ReplayStep(db: Db, key: GenKey, w: Worker, f: Frame, now: int)
    requires WorkerOk(key, w) && DurableOk(db, key, w) && Hands(w, f)
    requires Apply(db, f, now).reply.Ok? && !TakesEffect(db, f, now)
    ensures Apply(db, f, now).db == db
    ensures var v := Answered(w, Apply(db, f, now).reply.value, w.applied); WorkerOk(key, v) && DurableOk(db, key, v)
  {
    hide CalmOk, ReceiptsMatch, RowMatches, StateMatches, BindingsMatch;
    HandsKnown(key, w, f);
    ReplayAnswers(db, key, w, f, now);
    AnsweredDurable(db, key, w, Apply(db, f, now).reply.value);
    AnsweredReplay(key, w, Apply(db, f, now).reply.value);
  }

  /** `f`, in the hands of the daemon of `w`, took `s` to `t`. */
  ghost predicate Lands(s: System, t: System, key: GenKey, w: Worker, f: Frame) {
    && SystemOk(t) && t.ids == s.ids && t.seen == s.seen
    && Hands(w, f) && Applied(s.db, t.db, key, f) && IsCurrent(s.db, key)
    && w.applied < |w.sent| && f.seqno == w.applied + 1
    && f.base == w.hello.revision + w.applied == s.db.deployments[key.dep].revision
  }

  /** The world after a frame took effect, given what that left in the tables. */
  lemma WorldApplied(x: World, y: World, key: GenKey, f: Frame)
    requires WorldOk(x) && key in x.workers && Lands(x.sys, y.sys, key, x.workers[key], f)
    requires y.launches == x.launches
    requires y.workers == x.workers[key := Answered(x.workers[key], AckFor(f), x.workers[key].applied + 1)]
    ensures WorldOk(y)
  {
    var w := x.workers[key];
    var v := Answered(w, AckFor(f), w.applied + 1);
    assert DurableOk(x.sys.db, key, w) && WorkerOk(key, w) && HelloOk(v);
    EffectKeeps(x.sys.db, y.sys.db, key, w, f);
    TablesApplied(x, y, key, f, v);
    LaunchesApplied(x, y, key, f);
    WorkersApplied(x, y, key, v);
  }

  lemma FrameNext(s: System, f: Frame, now: int)
    ensures var t := Next(s, ApplyFrame(f, now)); t.ids == s.ids && t.seen == s.seen && t.db == Apply(s.db, f, now).db
    ensures !TakesEffect(s.db, f, now) ==> Next(s, ApplyFrame(f, now)) == s
  {
    assert s.ids + {} == s.ids;
    if !TakesEffect(s.db, f, now) {
      NoEffect(s.db, f, now);
    }
  }

  /** Everything `WorldApplied` needs, from the worker whose frame is applied. */
  lemma EffectOf(s: System, key: GenKey, w: Worker, f: Frame, now: int)
    requires SystemOk(s) && SentOk(key, w) && PipesOk(w) && RowMatches(s.db.generations, key, w) && StateMatches(s.db, key, w)
    requires Hands(w, f) && TakesEffect(s.db, f, now)
    ensures IsCurrent(s.db, key) && w.applied < |w.sent| && f.seqno == w.applied + 1
    ensures Applied(s.db, Next(s, ApplyFrame(f, now)).db, key, f)
    ensures f.base == w.hello.revision + w.applied == s.db.deployments[key.dep].revision
  {
    EffectFacts(s.db, key, w, f, now);
    EffectApplied(s.db, key, f, now);
  }

  /** The frame the daemon hands to the store in a `Store` step. */
  ghost function HandedFrame(x: World, s: Step): Frame
    requires s.Store? && s.key in x.workers && x.workers[s.key].phase.Bound?
  {
    StoreFrame(x.workers[s.key].phase.frame, s.mutations, s.deliveries)
  }

  lemma HandedHands(x: World, s: Step)
    requires s.Store? && Enabled(x, s)
    ensures s.key in x.workers && Hands(x.workers[s.key], HandedFrame(x, s))
  {
  }

  lemma StoreHappens(x: World, s: Step)
    requires s.Store? && s.key in x.workers && x.workers[s.key].phase.Bound?
    ensures var f := HandedFrame(x, s); var w := x.workers[s.key];
      Happens(x, s) == World(Next(x.sys, ApplyFrame(f, s.now)), x.launches,
        x.workers[s.key := Stored(w, Apply(x.sys.db, f, s.now).reply, TakesEffect(x.sys.db, f, s.now))])
  {
  }

  lemma EffectLands(s: System, key: GenKey, w: Worker, f: Frame, now: int)
    requires SystemOk(s) && WorkerOk(key, w) && DurableOk(s.db, key, w) && Hands(w, f) && TakesEffect(s.db, f, now)
    ensures Lands(s, Next(s, ApplyFrame(f, now)), key, w, f)
  {
    EffectOf(s, key, w, f, now);
    FrameNext(s, f, now);
    NextKeeps(s, ApplyFrame(f, now));
  }

  lemma StoreEffect(x: World, y: World, key: GenKey, f: Frame, now: int)
    requires WorldOk(x) && key in x.workers && Hands(x.workers[key], f) && TakesEffect(x.sys.db, f, now)
    requires y.sys == Next(x.sys, ApplyFrame(f, now)) && y.launches == x.launches
    requires y.workers == x.workers[key := Answered(x.workers[key], AckFor(f), x.workers[key].applied + 1)]
    ensures WorldOk(y)
  {
    EffectLands(x.sys, key, x.workers[key], f, now);
    WorldApplied(x, y, key, f);
  }

  lemma StillSound(db: Db, key: GenKey, w: Worker, f: Frame, now: int)
    requires Sound(db, key, w) && Hands(w, f) && !TakesEffect(db, f, now)
    ensures Sound(db, key, Stored(w, Apply(db, f, now).reply, false))
  {
    hide BasicOk, CalmOk;
    if Apply(db, f, now).reply.Ok? {
      ReplayStep(db, key, w, f, now);
    } else {
      HaltKeeps(key, w, Halted);
    }
  }

  lemma StillKeeps(x: World, key: GenKey, f: Frame, now: int)
    requires WorldOk(x) && key in x.workers && Hands(x.workers[key], f) && !TakesEffect(x.sys.db, f, now)
    ensures WorldOk(x.(workers := x.workers[key := Stored(x.workers[key], Apply(x.sys.db, f, now).reply, false)]))
  {
    StillSound(x.sys.db, key, x.workers[key], f, now);
    OneWorker(x, key, Stored(x.workers[key], Apply(x.sys.db, f, now).reply, false));
  }

  /** `y` is `x` once the store has answered `f` and the daemon of `key` has the answer. */
  ghost predicate Answers(x: World, y: World, key: GenKey, f: Frame, now: int) {
    && key in x.workers && Hands(x.workers[key], f)
    && y.sys == Next(x.sys, ApplyFrame(f, now)) && y.launches == x.launches
    && y.workers == x.workers[key := Stored(x.workers[key], Apply(x.sys.db, f, now).reply, TakesEffect(x.sys.db, f, now))]
  }

  lemma StoreAnswers(x: World, s: Step)
    requires s.Store? && Enabled(x, s)
    ensures Answers(x, Happens(x, s), s.key, HandedFrame(x, s), s.now)
  {
    HandedHands(x, s);
    StoreHappens(x, s);
  }

  lemma AnswersKeeps(x: World, y: World, key: GenKey, f: Frame, now: int)
    requires WorldOk(x) && Answers(x, y, key, f, now)
    ensures WorldOk(y)
  {
    if TakesEffect(x.sys.db, f, now) {
      TookEffect(x.sys.db, f, now);
      StoreEffect(x, y, key, f, now);
    } else {
      FrameNext(x.sys, f, now);
      StillKeeps(x, key, f, now);
      assert y == x.(workers := y.workers);
    }
  }

  lemma StoreStep(x: World, s: Step)
    requires WorldOk(x) && s.Store? && Enabled(x, s)
    ensures WorldOk(Happens(x, s))
  {
    StoreAnswers(x, s);
    AnswersKeeps(x, Happens(x, s), s.key, HandedFrame(x, s), s.now);
  }

  lemma TookEffect(db: Db, f: Frame, now: int)
    requires TakesEffect(db, f, now)
    ensures Apply(db, f, now).reply == Ok(AckFor(f))
  {
  }

  // ---- Whole runs -----------------------------------------------------------------------------------

  lemma HappensKeeps(x: World, s: Step)
    requires WorldOk(x) && Enabled(x, s)
    ensures WorldOk(Happens(x, s))
  {
    if Local(s) {
      LocalStep(x, s);
    } else {
      match s
      case External(write) => ExternalStep(x, write);
      case Restart(now) => RestartStep(x, now);
      case Observe(dep) => ObserveStep(x, dep);
      case Launch(_, _, _, _) => LaunchStep(x, s);
      case Store(_, _, _, _) => StoreStep(x, s);
    }
  }

  lemma GenesisOk()
    ensures WorldOk(GENESIS)
  {
    StartOk();
  }

  /** Every step of the script was possible where it happened. */
  ghost predicate Possible(x: World, steps: seq<Step>)
    decreases |steps|
  {
    steps == [] || (Enabled(x, steps[0]) && Possible(Happens(x, steps[0]), steps[1..]))
  }

  ghost function Play(x: World, steps: seq<Step>): World
    requires Possible(x, steps)
    decreases |steps|
  {
    if steps == [] then x else Play(Happens(x, steps[0]), steps[1..])
  }

  lemma {:induction false} PlayKeeps(x: World, steps: seq<Step>)
    requires WorldOk(x) && Possible(x, steps)
    ensures WorldOk(Play(x, steps))
    decreases |steps|
  {
    if steps != [] {
      HappensKeeps(x, steps[0]);
      PlayKeeps(Happens(x, steps[0]), steps[1..]);
    }
  }
}
