/** What an activation promises about the snapshot a worker is greeted with. */
module Freshness {
  import opened Schema
  import opened Transactions
  import opened Lifecycle
  import opened Retention
  import opened Integrity
  import opened Writes
  import opened History
  import opened WorldSafety

  // ---- Which writes touch checkpoints -------------------------------------------------------------

  lemma {:induction false} DeletedCheckpoints(db: Db, name: SweepName, p: Page, taken: nat, now: int)
    requires taken <= |p.ids|
    ensures DeleteAll(db, name, p, taken, now).checkpoints == db.checkpoints
  {
    if taken > 0 {
      DeletedCheckpoints(db, name, p, taken - 1, now);
    }
  }

  lemma StatusCheckpoints(db: Db, id: DeploymentId, from: Status, to: Status, expires: Option<int>, now: int)
    ensures SetStatus(db, id, from, to, expires, now).db.checkpoints == db.checkpoints
  {
  }

  lemma EditCheckpoints(db: Db, id: DeploymentId, base: nat, state: Json, now: int)
    ensures ReplaceState(db, id, base, state, now).db.checkpoints == db.checkpoints
  {
  }

  lemma OperatorCheckpoints(db: Db, w: Write)
    requires Fencing(w) && !w.ClearSources?
    ensures Perform(db, w).checkpoints == db.checkpoints
  {
    hide SetStatus, ReplaceState;
    match w
    case RecoverDaemon(_) =>
    case PauseOne(dep, now) => StatusCheckpoints(db, dep, Active, Inactive, None, now);
    case ResumeOne(dep, expires, now) => StatusCheckpoints(db, dep, Inactive, Active, expires, now);
    case ExpireDue(_) =>
    case ArchiveOne(_, _) =>
    case EditState(dep, base, state, now) => EditCheckpoints(db, dep, base, state, now);
  }

  lemma DeployCheckpoints(db: Db, newId: DeploymentId, i: DeployInput, now: int)
    ensures Deploy(db, newId, i, now).db.checkpoints == db.checkpoints
  {
  }

  /** Besides a transaction frame only clearing and purging touch checkpoint rows. */
  lemma ExternalCheckpoints(db: Db, w: Write)
    requires External(w) && !w.ClearSources? && !w.PurgeOne?
    ensures Perform(db, w).checkpoints == db.checkpoints
  {
    if w.DeployOne? {
      DeployCheckpoints(db, w.newId, w.input, w.now);
    } else if Fencing(w) {
      OperatorCheckpoints(db, w);
    } else if Watching(w) {
      WatchingFrame(db, w);
    } else if Delivering(w) {
      DeliveringFrame(db, w);
    } else if Marking(w) {
      MarkingFrame(db, w);
    } else if w.taken <= |w.page.ids| {
      DeletedCheckpoints(db, w.name, w.page, w.taken, w.now);
    }
  }

  // ---- A snapshot over a run of writes --------------------------------------------------------------

  lemma NextKeepsSnapshot(s: System, w: Write, read: Snapshot)
    requires SystemOk(s) && Allowed(s, w) && SnapshotOk(s.db, s.ids, s.seen, read)
    ensures SnapshotOk(Next(s, w).db, Next(s, w).ids, Next(s, w).seen, read)
  {
    if w.ApplyFrame? {
      FrameNext(s, w.frame, w.now);
      if TakesEffect(s.db, w.frame, w.now) {
        EffectApplied(s.db, GenKey(w.frame.dep, w.frame.gen), w.frame, w.now);
        EffectShape(s.db, w.frame, w.now);
        OldSnapshotApplied(s.db, Next(s, w).db, GenKey(w.frame.dep, w.frame.gen), w.frame, s.ids, s.seen, read);
      }
    } else if w.OpenGeneration? {
      OpenKeepsSnapshot(s, w, read);
    } else {
      assert w.DeployOne? ==> w.newId !in s.db.deployments.Keys;
      ExternalSettles(s.db, w);
      SettlesKeepsSnapshot(s.db, Next(s, w).db, s.ids, Brings(w), s.seen, read);
    }
  }

  lemma OpenKeepsSnapshot(s: System, w: Write, read: Snapshot)
    requires SystemOk(s) && w.OpenGeneration? && SnapshotOk(s.db, s.ids, s.seen, read)
    ensures SnapshotOk(Next(s, w).db, Next(s, w).ids, Next(s, w).seen, read)
  {
    if Activate(s.db, w.snapshot, w.fingerprint, w.token, w.now).reply.Ok? {
      var key := GenKey(w.snapshot.dep, Activate(s.db, w.snapshot, w.fingerprint, w.token, w.now).reply.value);
      ActivationOpened(s.db, w.snapshot, w.fingerprint, w.token, w.now);
      ActivationKeepsOpened(s.db, w.snapshot, w.fingerprint, w.token, w.now, s.ids, s.seen);
      OldSnapshot(s.db, FencedOff(s.db, w.snapshot.dep, w.now), Next(s, w).db, s.ids, s.seen, key, w.snapshot, w.token, read);
    } else {
      RefusedActivation(s.db, w.snapshot, w.fingerprint, w.token, w.now);
    }
  }

  lemma {:induction false} RunKeepsSnapshot(s: System, ws: seq<Write>, read: Snapshot)
    requires SystemOk(s) && AllowedRun(s, ws) && SnapshotOk(s.db, s.ids, s.seen, read)
    ensures SnapshotOk(Run(s, ws).db, Run(s, ws).ids, Run(s, ws).seen, read)
    decreases |ws|
  {
    if ws != [] {
      NextKeeps(s, ws[0]);
      NextKeepsSnapshot(s, ws[0], read);
      RunKeepsSnapshot(Next(s, ws[0]), ws[1..], read);
    }
  }

  /** An operator cleared the checkpoints of `dep` somewhere in the run. */
  ghost predicate ClearedIn(s: System, ws: seq<Write>, dep: DeploymentId)
    decreases |ws|
  {
    ws != [] && (ClearsNow(s.db, ws[0], dep) || ClearedIn(Next(s, ws[0]), ws[1..], dep))
  }

  predicate ClearsNow(db: Db, w: Write, dep: DeploymentId) {
    w.ClearSources? && w.dep == dep && ClearCheckpoints(db, dep, w.now).reply.Ok?
  }

  /** Unless it was cleared, a snapshot whose revision is still current has the current checkpoints. */
  ghost predicate Faithful(db: Db, read: Snapshot) {
    read.dep in db.deployments && db.deployments[read.dep].revision == read.revision ==>
      CheckpointsOf(db, read.dep) == read.checkpoints
  }

  lemma SameSources(a: Db, b: Db, dep: DeploymentId, w: Write)
    requires External(w) && b == Perform(a, w) && !ClearsNow(a, w, dep) && dep in b.deployments
    ensures CheckpointsOf(b, dep) == CheckpointsOf(a, dep)
  {
    if w.ClearSources? {
      ClearedSources(a, w.dep, w.now, dep);
    } else if w.PurgeOne? {
      PurgedSources(a, w.dep, w.force, dep);
    } else {
      ExternalCheckpoints(a, w);
      SameCheckpoints(a, b, dep);
    }
  }

  lemma ClearedSources(a: Db, id: DeploymentId, now: int, dep: DeploymentId)
    requires !(id == dep && ClearCheckpoints(a, id, now).reply.Ok?)
    ensures CheckpointsOf(ClearCheckpoints(a, id, now).db, dep) == CheckpointsOf(a, dep)
  {
    var b := ClearCheckpoints(a, id, now).db;
    if ClearCheckpoints(a, id, now).reply.Ok? {
      assert b.checkpoints == map k | k in a.checkpoints && k.dep != id :: a.checkpoints[k];
      SameCheckpoints(a, b, dep);
    }
  }

  lemma PurgedSources(a: Db, id: DeploymentId, force: bool, dep: DeploymentId)
    requires dep in Purge(a, id, force).db.deployments
    ensures CheckpointsOf(Purge(a, id, force).db, dep) == CheckpointsOf(a, dep)
  {
    SameCheckpoints(a, Purge(a, id, force).db, dep);
  }

  lemma ExternalFaithful(s: System, w: Write, read: Snapshot)
    requires SystemOk(s) && Allowed(s, w) && External(w) && !ClearsNow(s.db, w, read.dep)
    requires SnapshotOk(s.db, s.ids, s.seen, read) && Faithful(s.db, read)
    ensures Faithful(Next(s, w).db, read)
  {
    var b := Next(s, w).db;
    assert w.DeployOne? ==> w.newId !in s.db.deployments.Keys;
    ExternalSettles(s.db, w);
    if read.dep in b.deployments {
      assert read.dep in b.deployments.Keys;
      assert Versioned(s.db, b, read.dep);
      SameSources(s.db, b, read.dep, w);
    }
  }

  lemma FrameFaithful(s: System, w: Write, read: Snapshot)
    requires w.ApplyFrame? && SnapshotOk(s.db, s.ids, s.seen, read) && Faithful(s.db, read)
    ensures Faithful(Next(s, w).db, read)
  {
    FrameNext(s, w.frame, w.now);
    if TakesEffect(s.db, w.frame, w.now) {
      EffectShape(s.db, w.frame, w.now);
      if w.frame.dep != read.dep {
        OtherCheckpoints(s.db, Next(s, w).db, w.frame, read.dep);
      }
    }
  }

  lemma OpenFaithful(s: System, w: Write, read: Snapshot)
    requires w.OpenGeneration? && Faithful(s.db, read)
    ensures Faithful(Next(s, w).db, read)
  {
    var b := Next(s, w).db;
    assert b.checkpoints == s.db.checkpoints;
    SameCheckpoints(s.db, b, read.dep);
  }

  lemma NextFaithful(s: System, w: Write, read: Snapshot)
    requires SystemOk(s) && Allowed(s, w) && !ClearsNow(s.db, w, read.dep)
    requires SnapshotOk(s.db, s.ids, s.seen, read) && Faithful(s.db, read)
    ensures Faithful(Next(s, w).db, read)
  {
    if w.ApplyFrame? {
      FrameFaithful(s, w, read);
    } else if w.OpenGeneration? {
      OpenFaithful(s, w, read);
    } else {
      ExternalFaithful(s, w, read);
    }
  }

  lemma {:induction false} RunFaithful(s: System, ws: seq<Write>, read: Snapshot)
    requires SystemOk(s) && AllowedRun(s, ws) && !ClearedIn(s, ws, read.dep)
    requires SnapshotOk(s.db, s.ids, s.seen, read) && Faithful(s.db, read)
    ensures Faithful(Run(s, ws).db, read)
    decreases |ws|
  {
    if ws != [] {
      NextKeeps(s, ws[0]);
      NextFaithful(s, ws[0], read);
      NextKeepsSnapshot(s, ws[0], read);
      RunFaithful(Next(s, ws[0]), ws[1..], read);
    }
  }

  // ---- Cleared ----------------------------------------------------------------------------------------

  /** Once cleared, the checkpoints of an unchanged revision stay empty. */
  ghost predicate Emptied(db: Db, read: Snapshot) {
    read.dep in db.deployments && db.deployments[read.dep].revision == read.revision ==> CheckpointsOf(db, read.dep) == map[]
  }

  lemma ClearEmpties(s: System, w: Write, read: Snapshot)
    requires ClearsNow(s.db, w, read.dep)
    ensures Emptied(Next(s, w).db, read)
  {
    var b := Next(s, w).db;
    assert forall k :: k in b.checkpoints ==> k.dep != read.dep;
  }

  lemma NextEmptied(s: System, w: Write, read: Snapshot)
    requires SystemOk(s) && Allowed(s, w) && SnapshotOk(s.db, s.ids, s.seen, read) && Emptied(s.db, read)
    ensures Emptied(Next(s, w).db, read)
  {
    if ClearsNow(s.db, w, read.dep) {
      ClearEmpties(s, w, read);
    } else {
      var empty := read.(checkpoints := map[]);
      EmptySnapshot(s.db, s.ids, s.seen, read);
      NextFaithful(s, w, empty);
    }
  }

  lemma EmptySnapshot(db: Db, ids: set<DeploymentId>, seen: set<GenKey>, read: Snapshot)
    requires SnapshotOk(db, ids, seen, read) && Emptied(db, read)
    ensures SnapshotOk(db, ids, seen, read.(checkpoints := map[])) && Faithful(db, read.(checkpoints := map[]))
  {
  }

  lemma {:induction false} RunEmptied(s: System, ws: seq<Write>, read: Snapshot)
    requires SystemOk(s) && AllowedRun(s, ws) && SnapshotOk(s.db, s.ids, s.seen, read)
    requires Emptied(s.db, read) || ClearedIn(s, ws, read.dep)
    ensures Emptied(Run(s, ws).db, read)
    decreases |ws|
  {
    if ws != [] {
      NextKeeps(s, ws[0]);
      NextKeepsSnapshot(s, ws[0], read);
      if Emptied(s.db, read) {
        NextEmptied(s, ws[0], read);
      } else if ClearsNow(s.db, ws[0], read.dep) {
        ClearEmpties(s, ws[0], read);
      }
      RunEmptied(Next(s, ws[0]), ws[1..], read);
    }
  }

  // ---- The theorem --------------------------------------------------------------------------------------

  lemma ReadFaithful(s: System, dep: DeploymentId)
    requires SystemOk(s) && dep in s.db.deployments
    ensures SnapshotOk(s.db, s.ids, s.seen, ReadSnapshot(s.db, dep).value) && Faithful(s.db, ReadSnapshot(s.db, dep).value)
  {
    ReadOk(s, dep);
  }

  /** A snapshot read at one instant and activated after any run of writes: its state and revision are the durable
      ones at that instant. Its checkpoints are too exactly when it had none or nobody cleared them in between,
      and always when a generation was active when it was read. */
  lemma ActivationFreshness(s: System, ws: seq<Write>, dep: DeploymentId, fingerprint: string, token: Token, now: int)
    requires SystemOk(s) && AllowedRun(s, ws) && dep in s.db.deployments
    requires Activate(Run(s, ws).db, ReadSnapshot(s.db, dep).value, fingerprint, token, now).reply.Ok?
    ensures var read := ReadSnapshot(s.db, dep).value;
      var db := Run(s, ws).db;
      && dep in db.deployments && db.deployments[dep].state == read.state && db.deployments[dep].revision == read.revision
      && (CheckpointsOf(db, dep) == read.checkpoints <==> read.checkpoints == map[] || !ClearedIn(s, ws, dep))
      && (read.activeGeneration > 0 ==> CheckpointsOf(db, dep) == read.checkpoints)
  {
    var read := ReadSnapshot(s.db, dep).value;
    var t := Run(s, ws);
    ReadFaithful(s, dep);
    RunKeeps(s, ws);
    RunKeepsSnapshot(s, ws, read);
    ActivationIsFresh(t.db, t.ids, t.seen, read, fingerprint, token, now);
    if ClearedIn(s, ws, dep) {
      RunEmptied(s, ws, read);
    } else {
      RunFaithful(s, ws, read);
    }
  }
}
