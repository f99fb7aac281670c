/** The health notices of the records and the rows of the outbox are the same thing. */
module Notices {
  import opened Schema
  import opened Transactions
  import opened Lifecycle
  import opened HealthRecords
  import opened Retention
  import opened Integrity
  import opened Writes
  import opened HealthHistory
  import opened Gains

  /** The health rows of the outbox that `b` has and `a` had not. */
  function NewNotices(a: Db, b: Db, dep: DeploymentId): set<OutboxId> {
    set o | o in b.events && o !in a.events && b.events[o].dep == dep && b.events[o].kind == HealthNotice
  }

  predicate Notifies(r: HealthHistory.Record) {
    match r case Silent => false case Failure(notice) => notice case Success(notice) => notice
  }

  // ---- Writes that record nothing ---------------------------------------------------------------------

  /** Whatever rows went in, none is a health notice. */
  ghost predicate NoNotice(a: Db, b: Db) {
    forall o :: o in b.events && o !in a.events ==> b.events[o].kind == Monitor
  }

  lemma {:induction false} FrameEvents(tx: Db, f: Frame, es: seq<OutboxEvent>, now: int)
    requires (forall i :: 0 <= i < |es| ==> ValidEvent(es[i])) && InsertEvents(tx, f, es, now).Ok?
    ensures NoNotice(tx, InsertEvents(tx, f, es, now).value)
  {
    if es != [] {
      FrameEvents(tx, f, es[..|es| - 1], now);
    }
  }

  lemma ApplyEvents(db: Db, f: Frame, now: int)
    ensures NoNotice(db, Apply(db, f, now).db)
  {
    if TakesEffect(db, f, now) {
      FrameEvents(Advance(db, f), f, f.events, now);
    }
  }

  lemma ActivateEvents(db: Db, s: Snapshot, fingerprint: string, token: Token, now: int)
    ensures Activate(db, s, fingerprint, token, now).db.events == db.events
  {
    var b := Activate(db, s, fingerprint, token, now).db;
    assert b == db || b == db.(deployments := b.deployments, generations := b.generations, health := b.health);
  }

  lemma DeployEvents(db: Db, newId: DeploymentId, i: DeployInput, now: int)
    ensures Deploy(db, newId, i, now).db.events == db.events
  {
  }

  lemma StatusEvents(db: Db, id: DeploymentId, from: Status, to: Status, expires: Option<int>, now: int)
    ensures SetStatus(db, id, from, to, expires, now).db.events == db.events
  {
  }

  lemma EditEvents(db: Db, id: DeploymentId, base: nat, state: Json, now: int)
    ensures ReplaceState(db, id, base, state, now).db.events == db.events
  {
  }

  lemma ClearEvents(db: Db, id: DeploymentId, now: int)
    ensures ClearCheckpoints(db, id, now).db.events == db.events
  {
    var b := ClearCheckpoints(db, id, now).db;
    assert b == db || b == db.(deployments := b.deployments, generations := b.generations, checkpoints := b.checkpoints, health := b.health);
  }

  lemma FencingEvents(db: Db, w: Write)
    requires Fencing(w)
    ensures Perform(db, w).events == db.events
  {
    match w
    case RecoverDaemon(_) =>
    case PauseOne(dep, now) => StatusEvents(db, dep, Active, Inactive, None, now);
    case ResumeOne(dep, expires, now) => StatusEvents(db, dep, Inactive, Active, expires, now);
    case ExpireDue(_) =>
    case ArchiveOne(_, _) =>
    case EditState(dep, base, state, now) => EditEvents(db, dep, base, state, now);
    case ClearSources(dep, now) => ClearEvents(db, dep, now);
  }

  lemma PurgeEvents(db: Db, id: DeploymentId, force: bool)
    ensures NoNotice(db, Purge(db, id, force).db)
  {
  }

  lemma {:induction false} DeletedEvents(db: Db, name: SweepName, p: Page, taken: nat, now: int)
    requires taken <= |p.ids|
    ensures DeleteAll(db, name, p, taken, now).events.Keys <= db.events.Keys
  {
    if taken > 0 {
      DeletedEvents(db, name, p, taken - 1, now);
    }
  }

  lemma PruneEvents(db: Db, name: SweepName, p: Page, taken: nat, now: int)
    requires taken <= |p.ids|
    ensures NoNotice(db, Prune(db, name, p, taken, now).db)
  {
    DeletedEvents(db, name, p, taken, now);
    assert forall o :: o in Prune(db, name, p, taken, now).db.events ==> o in db.events.Keys;
  }

  lemma OtherEvents(db: Db, w: Write)
    requires !Watching(w)
    ensures NoNotice(db, Perform(db, w))
  {
    if w.ApplyFrame? {
      ApplyEvents(db, w.frame, w.now);
    } else if w.OpenGeneration? {
      ActivateEvents(db, w.snapshot, w.fingerprint, w.token, w.now);
    } else if w.DeployOne? {
      DeployEvents(db, w.newId, w.input, w.now);
    } else if Fencing(w) {
      FencingEvents(db, w);
    } else if Marking(w) {
      MarkingFrame(db, w);
    } else if Delivering(w) {
      DeliveringFrame(db, w);
    } else if w.PurgeOne? {
      PurgeEvents(db, w.dep, w.force);
    } else if w.taken <= |w.page.ids| {
      PruneEvents(db, w.name, w.page, w.taken, w.now);
    }
  }

  // ---- Writes that record something -------------------------------------------------------------------

  /** A recorded transition and the rows it brought. */
  lemma RecordedRows(a: Db, b: Db, at: DeploymentId, t: Transition, nonce: nat, now: int, dep: DeploymentId)
    requires Recorded(a, b, at, t, nonce, now)
    ensures NewNotices(a, b, dep) == if t != Quiet && dep == at then {Random(nonce)} else {}
    ensures t != Quiet ==> Random(nonce) in b.events && b.events[Random(nonce)].eventId == Notice(t == BecameUnhealthy, Random(nonce))
  {
  }

  /** What one health write did, whichever it was. */
  ghost predicate Tells(a: Db, b: Db, w: Write)
    requires Watching(w)
  {
    if Reply(a, w).Ok? then Recorded(a, b, w.dep, Reply(a, w).value, w.nonce, w.now) else b == a
  }

  lemma WatchingTells(db: Db, w: Write)
    requires Watching(w) && Inv(db)
    ensures Tells(db, Perform(db, w), w)
  {
    hide Answers, Heard, Concerns, Inv;
    match w
    case RunRecorded(dep, gen, status, nonce, now) => RunMeans(db, dep, gen, status, nonce, now);
    case StableMarked(dep, gen, nonce, now) => StableMeans(db, dep, gen, nonce, now);
    case FailureRecorded(dep, gen, nonce, now) => FailureMeans(db, dep, gen, nonce, now);
  }

  /** A record notifies exactly when its transition is not quiet. */
  lemma RecordNotifies(db: Db, w: Write)
    requires Watching(w) && Reply(db, w).Ok? && Tells(db, Perform(db, w), w)
    ensures w.dep in db.health && w.dep in Perform(db, w).health && Follows(db.health[w.dep], RecordOf(db, w, w.dep), Perform(db, w).health[w.dep])
    ensures Notifies(RecordOf(db, w, w.dep)) <==> Reply(db, w).value != Quiet
    ensures RecordOf(db, w, w.dep).Failure? && Reply(db, w).value != Quiet ==> Reply(db, w).value == BecameUnhealthy
    ensures RecordOf(db, w, w.dep).Success? && Reply(db, w).value != Quiet ==> Reply(db, w).value == Recovered
  {
    EveryWriteFollows(db, w, w.dep);
  }

  /** The health rows a write inserts for a deployment are exactly the notice it records, if it records one: unhealthy
      for a failure, recovered for a success. */
  lemma NoticesAreRows(db: Db, w: Write, dep: DeploymentId)
    requires Inv(db)
    ensures NewNotices(db, Perform(db, w), dep) == if Notifies(RecordOf(db, w, dep)) then {Random(w.nonce)} else {}
    ensures Notifies(RecordOf(db, w, dep)) ==>
      && Random(w.nonce) in Perform(db, w).events
      && Perform(db, w).events[Random(w.nonce)].eventId == Notice(RecordOf(db, w, dep).Failure?, Random(w.nonce))
  {
    hide Inv, Perform, Recorded;
    if !Watching(w) {
      OtherEvents(db, w);
    } else {
      WatchingTells(db, w);
      if Reply(db, w).Ok? {
        RecordNotifies(db, w);
        RecordedRows(db, Perform(db, w), w.dep, Reply(db, w).value, w.nonce, w.now, dep);
      }
    }
  }
}
