/** Health over whole runs: alternating notices, a latch that remembers the last one, and a counter that
    means what it says. */
module HealthHistory {
  import opened Schema
  import opened Transactions
  import opened Lifecycle
  import opened HealthRecords
  import opened Retention
  import opened Integrity
  import opened Writes
  import opened History
  import Gains

  /** What one write records about a deployment: nothing, a failure, or a success; and the notice it sends. */
  datatype Record = Silent | Failure(notice: bool) | Success(notice: bool)

  /** The deployment a health write is about, and its outcome. */
  function Reply(db: Db, w: Write): Result<Transition>
    requires Watching(w)
  {
    match w
    case RunRecorded(dep, gen, status, nonce, now) => RecordRun(db, dep, gen, status, nonce, now).reply
    case StableMarked(dep, gen, nonce, now) => MarkStable(db, dep, gen, nonce, now).reply
    case FailureRecorded(dep, gen, nonce, now) => RecordFailure(db, dep, gen, nonce, now).reply
  }

  function RecordOf(db: Db, w: Write, dep: DeploymentId): Record {
    if !Watching(w) || w.dep != dep || Reply(db, w).Err? then Silent
    else if w.RunRecorded? && w.status == Deferred then Silent
    else if (w.RunRecorded? && w.status == Succeeded) || w.StableMarked? then Success(Reply(db, w).value == Recovered)
    else Failure(Reply(db, w).value == BecameUnhealthy)
  }

  /** How a record moves the counter and the latch; notices are only sent when the latch is the other way. */
  ghost predicate Follows(a: Health, r: Record, b: Health) {
    match r
    case Silent => b.failures == a.failures && b.notified == a.notified
    case Failure(notice) =>
      b.failures == a.failures + 1 && (notice ==> !a.notified) && b.notified == (a.notified || notice)
    case Success(notice) => b.failures == 0 && notice == a.notified && !b.notified
  }

  // ---- Health writes --------------------------------------------------------------------------------

  lemma CountFollows(db: Db, dep: DeploymentId, gen: nat, nonce: nat, now: int)
    requires Watched(db, dep) && CountFailure(db, dep, gen, nonce, now).reply.Ok?
    ensures var out := CountFailure(db, dep, gen, nonce, now);
      dep in out.db.health && Follows(db.health[dep], Failure(out.reply.value == BecameUnhealthy), out.db.health[dep])
  {
  }

  lemma ClearFollows(db: Db, dep: DeploymentId, gen: nat, nonce: nat, now: int)
    requires Watched(db, dep) && ClearFailures(db, dep, gen, nonce, now).reply.Ok?
    ensures var out := ClearFailures(db, dep, gen, nonce, now);
      dep in out.db.health && Follows(db.health[dep], Success(out.reply.value == Recovered), out.db.health[dep])
  {
  }

  lemma RefusedWatching(db: Db, w: Write)
    requires Watching(w) && Reply(db, w).Err?
    ensures Perform(db, w) == db
  {
  }

  lemma DeferFollows(db: Db, dep: DeploymentId, gen: nat, nonce: nat, now: int)
    requires RecordRun(db, dep, gen, Deferred, nonce, now).reply.Ok?
    ensures var out := RecordRun(db, dep, gen, Deferred, nonce, now);
      dep in db.health && dep in out.db.health && Follows(db.health[dep], Silent, out.db.health[dep])
  {
  }

  lemma RunIs(db: Db, dep: DeploymentId, gen: nat, status: RunStatus, nonce: nat, now: int)
    requires RecordRun(db, dep, gen, status, nonce, now).reply.Ok? && status != Deferred
    ensures Watched(db, dep) && dep in db.health
    ensures RecordRun(db, dep, gen, status, nonce, now)
      == if status == Succeeded then ClearFailures(db, dep, gen, nonce, now) else CountFailure(db, dep, gen, nonce, now)
  {
  }

  lemma RunFollows(db: Db, w: Write)
    requires w.RunRecorded? && Reply(db, w).Ok?
    ensures w.dep in db.health && w.dep in Perform(db, w).health
    ensures Follows(db.health[w.dep], RecordOf(db, w, w.dep), Perform(db, w).health[w.dep])
  {
    if w.status == Deferred {
      DeferFollows(db, w.dep, w.gen, w.nonce, w.now);
    } else {
      RunIs(db, w.dep, w.gen, w.status, w.nonce, w.now);
      if w.status == Succeeded {
        ClearFollows(db, w.dep, w.gen, w.nonce, w.now);
      } else {
        CountFollows(db, w.dep, w.gen, w.nonce, w.now);
      }
    }
  }

  lemma StableFollows(db: Db, w: Write)
    requires w.StableMarked? && Reply(db, w).Ok?
    ensures w.dep in db.health && w.dep in Perform(db, w).health
    ensures Follows(db.health[w.dep], RecordOf(db, w, w.dep), Perform(db, w).health[w.dep])
  {
    ClearFollows(db, w.dep, w.gen, w.nonce, w.now);
  }

  lemma FailureFollows(db: Db, w: Write)
    requires w.FailureRecorded? && Reply(db, w).Ok?
    ensures w.dep in db.health && w.dep in Perform(db, w).health
    ensures Follows(db.health[w.dep], RecordOf(db, w, w.dep), Perform(db, w).health[w.dep])
  {
    CountFollows(db, w.dep, if w.failedGen.Some? then db.deployments[w.dep].activeGeneration else 0, w.nonce, w.now);
  }

  // ---- Other writes -----------------------------------------------------------------------------------

  /** The counter and the latch are as they were. */
  ghost predicate Kept(a: Db, b: Db, dep: DeploymentId) {
    dep in a.health && dep in b.health ==> Follows(a.health[dep], Silent, b.health[dep])
  }

  lemma CountKept(db: Db, dep: DeploymentId, other: DeploymentId, gen: nat, nonce: nat, now: int)
    requires Watched(db, other) && dep != other
    ensures Kept(db, CountFailure(db, other, gen, nonce, now).db, dep)
  {
  }

  lemma ClearKept(db: Db, dep: DeploymentId, other: DeploymentId, gen: nat, nonce: nat, now: int)
    requires Watched(db, other) && dep != other
    ensures Kept(db, ClearFailures(db, other, gen, nonce, now).db, dep)
  {
  }

  lemma OneRecordKept(db: Db, dep: DeploymentId, other: DeploymentId, gen: nat, nonce: nat, now: int)
    requires Watched(db, other) && dep != other
    ensures Kept(db, CountFailure(db, other, gen, nonce, now).db, dep)
    ensures Kept(db, ClearFailures(db, other, gen, nonce, now).db, dep)
  {
    CountKept(db, dep, other, gen, nonce, now);
    ClearKept(db, dep, other, gen, nonce, now);
  }

  lemma DeferKept(db: Db, dep: DeploymentId, other: DeploymentId, gen: nat, nonce: nat, now: int)
    requires dep != other
    ensures Kept(db, RecordRun(db, other, gen, Deferred, nonce, now).db, dep)
  {
  }

  lemma OtherRunKept(db: Db, w: Write, dep: DeploymentId)
    requires w.RunRecorded? && w.dep != dep && Reply(db, w).Ok?
    ensures Kept(db, Perform(db, w), dep)
  {
    if w.status == Deferred {
      DeferKept(db, dep, w.dep, w.gen, w.nonce, w.now);
    } else {
      RunIs(db, w.dep, w.gen, w.status, w.nonce, w.now);
      OneRecordKept(db, dep, w.dep, w.gen, w.nonce, w.now);
    }
  }

  lemma OtherWatchingKept(db: Db, w: Write, dep: DeploymentId)
    requires Watching(w) && w.dep != dep
    ensures Kept(db, Perform(db, w), dep)
  {
    hide CountFailure, ClearFailures, Notify;
    if Reply(db, w).Err? {
      RefusedWatching(db, w);
    } else {
      match w
      case RunRecorded(_, _, _, _, _) => OtherRunKept(db, w, dep);
      case StableMarked(other, gen, nonce, now) => OneRecordKept(db, dep, other, gen, nonce, now);
      case FailureRecorded(other, gen, nonce, now) =>
        OneRecordKept(db, dep, other, if gen.Some? then db.deployments[other].activeGeneration else 0, nonce, now);
    }
  }

  lemma ReadyKept(db: Db, dep: DeploymentId, other: DeploymentId, gen: nat, now: int)
    ensures Kept(db, MarkReady(db, other, gen, now).db, dep)
  {
  }

  lemma StoppedKept(db: Db, dep: DeploymentId, other: DeploymentId, gen: nat, failed: bool, now: int)
    ensures Kept(db, MarkStopped(db, other, gen, failed, now).db, dep)
  {
  }

  lemma MarkingKept(db: Db, w: Write, dep: DeploymentId)
    requires Marking(w)
    ensures Kept(db, Perform(db, w), dep)
  {
    match w
    case GenerationReady(other, gen, now) => ReadyKept(db, dep, other, gen, now);
    case GenerationStopped(other, gen, failed, now) => StoppedKept(db, dep, other, gen, failed, now);
  }

  lemma SweepingKept(db: Db, dep: DeploymentId, now: int)
    ensures Kept(db, Recover(db, now), dep) && Kept(db, Expire(db, now).db, dep)
  {
  }

  lemma EditKept(db: Db, dep: DeploymentId, id: DeploymentId, base: nat, state: Json, now: int)
    ensures Kept(db, ReplaceState(db, id, base, state, now).db, dep)
  {
  }

  lemma SourcesKept(db: Db, dep: DeploymentId, id: DeploymentId, now: int)
    ensures Kept(db, ClearCheckpoints(db, id, now).db, dep) && Kept(db, Archive(db, id, now).db, dep)
  {
  }

  lemma OperatorKept(db: Db, w: Write, dep: DeploymentId)
    requires Fencing(w)
    ensures Kept(db, Perform(db, w), dep)
  {
    match w
    case RecoverDaemon(now) => SweepingKept(db, dep, now);
    case PauseOne(id, now) => StatusKept(db, dep, id, Active, Inactive, None, now);
    case ResumeOne(id, expires, now) => StatusKept(db, dep, id, Inactive, Active, expires, now);
    case ExpireDue(now) => SweepingKept(db, dep, now);
    case ArchiveOne(id, now) => SourcesKept(db, dep, id, now);
    case EditState(id, base, state, now) => EditKept(db, dep, id, base, state, now);
    case ClearSources(id, now) => SourcesKept(db, dep, id, now);
  }

  lemma StatusKept(db: Db, dep: DeploymentId, id: DeploymentId, from: Status, to: Status, expires: Option<int>, now: int)
    ensures Kept(db, SetStatus(db, id, from, to, expires, now).db, dep)
  {
  }

  lemma DeploymentKept(db: Db, w: Write, dep: DeploymentId)
    requires w.DeployOne? || w.PurgeOne? || w.OpenGeneration?
    ensures Kept(db, Perform(db, w), dep)
  {
    match w
    case DeployOne(newId, input, now) => DeployKept(db, dep, newId, input, now);
    case PurgeOne(id, force) => assert Kept(db, Purge(db, id, force).db, dep);
    case OpenGeneration(s, fingerprint, token, now) => ActivateKept(db, dep, s, fingerprint, token, now);
  }

  lemma DeployHealth(db: Db, newId: DeploymentId, input: DeployInput, now: int) returns (id: DeploymentId)
    ensures var b := Deploy(db, newId, input, now).db; b.health == db.health || b.health == EnsureHealth(db, id, 0, Starting).health
  {
    hide Deploy, Gains.DeployedRow, Gains.Retires, Gains.Rebound;
    id := newId;
    Gains.DeployRefuses(db, newId, input, now);
    if Deploy(db, newId, input, now).reply.Ok? {
      id := Deploy(db, newId, input, now).reply.value;
      Gains.DeployMeans(db, newId, input, now);
    }
  }

  lemma DeployKept(db: Db, dep: DeploymentId, newId: DeploymentId, input: DeployInput, now: int)
    ensures Kept(db, Deploy(db, newId, input, now).db, dep)
  {
    var id := DeployHealth(db, newId, input, now);
    hide Deploy;
  }

  lemma ActivateKept(db: Db, dep: DeploymentId, s: Snapshot, fingerprint: string, token: Token, now: int)
    ensures Kept(db, Activate(db, s, fingerprint, token, now).db, dep)
  {
  }

  lemma SliceKept(db: Db, w: Write, dep: DeploymentId)
    requires w.PruneSlice?
    ensures Perform(db, w).health == db.health
  {
    if w.taken <= |w.page.ids| {
      SliceHealth(db, w.name, w.page, w.taken, w.now);
    }
  }

  lemma {:induction false} SliceHealth(db: Db, name: SweepName, p: Page, taken: nat, now: int)
    requires taken <= |p.ids|
    ensures DeleteAll(db, name, p, taken, now).health == db.health
  {
    if taken > 0 {
      SliceHealth(db, name, p, taken - 1, now);
    }
  }

  lemma FrameHealth(db: Db, f: Frame, now: int)
    ensures Apply(db, f, now).db.health == db.health
  {
    if TakesEffect(db, f, now) {
      EffectShape(db, f, now);
    } else {
      NoEffect(db, f, now);
    }
  }

  /** Every write moves a deployment's health exactly as its record says. */
  lemma EveryWriteFollows(db: Db, w: Write, dep: DeploymentId)
    requires dep in db.health && dep in Perform(db, w).health
    ensures Follows(db.health[dep], RecordOf(db, w, dep), Perform(db, w).health[dep])
  {
    if Watching(w) && w.dep == dep {
      OwnFollows(db, w);
    } else {
      OtherFollows(db, w, dep);
    }
  }

  lemma OwnFollows(db: Db, w: Write)
    requires Watching(w) && w.dep in db.health
    ensures w.dep in Perform(db, w).health && Follows(db.health[w.dep], RecordOf(db, w, w.dep), Perform(db, w).health[w.dep])
  {
    if Reply(db, w).Err? {
      RefusedWatching(db, w);
    } else {
      match w
      case RunRecorded(_, _, _, _, _) => RunFollows(db, w);
      case StableMarked(_, _, _, _) => StableFollows(db, w);
      case FailureRecorded(_, _, _, _) => FailureFollows(db, w);
    }
  }

  lemma OtherFollows(db: Db, w: Write, dep: DeploymentId)
    requires !(Watching(w) && w.dep == dep)
    ensures Kept(db, Perform(db, w), dep)
  {
    if w.ApplyFrame? {
      FrameHealth(db, w.frame, w.now);
    } else if w.DeployOne? || w.PurgeOne? || w.OpenGeneration? {
      DeploymentKept(db, w, dep);
    } else if Fencing(w) {
      OperatorKept(db, w, dep);
    } else if Marking(w) {
      MarkingKept(db, w, dep);
    } else if Watching(w) {
      OtherWatchingKept(db, w, dep);
    } else if Delivering(w) {
      DeliveringFrame(db, w);
    } else {
      SliceKept(db, w, dep);
    }
  }

  // ---- Whole runs ---------------------------------------------------------------------------------------

  /** The deployment exists throughout the run. */
  ghost predicate Lives(s: System, ws: seq<Write>, dep: DeploymentId)
    decreases |ws|
  {
    dep in s.db.health && (ws == [] || Lives(Next(s, ws[0]), ws[1..], dep))
  }

  /** True for unhealthy, false for recovered. */
  function NoticeOf(r: Record): seq<bool> {
    match r
    case Silent => []
    case Failure(notice) => if notice then [true] else []
    case Success(notice) => if notice then [false] else []
  }

  /** The notices a run sends about a deployment, in order. */
  function Notices(s: System, ws: seq<Write>, dep: DeploymentId): seq<bool>
    decreases |ws|
  {
    if ws == [] then [] else NoticeOf(RecordOf(s.db, ws[0], dep)) + Notices(Next(s, ws[0]), ws[1..], dep)
  }

  function CountAfter(count: nat, r: Record): nat {
    match r case Silent => count case Failure(_) => count + 1 case Success(_) => 0
  }

  /** Failures since the last success or stabilisation, starting from `count`. */
  function FailuresAfter(s: System, ws: seq<Write>, dep: DeploymentId, count: nat): nat
    decreases |ws|
  {
    if ws == [] then count
    else FailuresAfter(Next(s, ws[0]), ws[1..], dep, CountAfter(count, RecordOf(s.db, ws[0], dep)))
  }

  /** Unhealthy and recovered take turns, beginning with unhealthy unless the latch is already set. */
  predicate Alternates(notices: seq<bool>, latch: bool) {
    forall i :: 0 <= i < |notices| ==> notices[i] == if i % 2 == 0 then !latch else latch
  }

  function LatchAfter(notices: seq<bool>, latch: bool): bool {
    if notices == [] then latch else notices[|notices| - 1]
  }

  lemma NoticeStep(a: Health, r: Record, b: Health, rest: seq<bool>)
    requires Follows(a, r, b) && Alternates(rest, b.notified)
    ensures Alternates(NoticeOf(r) + rest, a.notified)
    ensures LatchAfter(NoticeOf(r) + rest, a.notified) == LatchAfter(rest, b.notified)
  {
    if NoticeOf(r) == [] {
      assert NoticeOf(r) + rest == rest;
    }
  }

  /** In every run of runs, deferrals, failures, stabilisations, redeploys and restarts, notices alternate and the
      latch is set exactly when the last one was unhealthy. */
  lemma {:induction false} NoticesAlternate(s: System, ws: seq<Write>, dep: DeploymentId)
    requires Lives(s, ws, dep)
    ensures dep in Run(s, ws).db.health && Alternates(Notices(s, ws, dep), s.db.health[dep].notified)
    ensures Run(s, ws).db.health[dep].notified == LatchAfter(Notices(s, ws, dep), s.db.health[dep].notified)
    decreases |ws|
  {
    if ws != [] {
      var t := Next(s, ws[0]);
      EveryWriteFollows(s.db, ws[0], dep);
      NoticesAlternate(t, ws[1..], dep);
      NoticeStep(s.db.health[dep], RecordOf(s.db, ws[0], dep), t.db.health[dep], Notices(t, ws[1..], dep));
    }
  }

  /** The counter is the number of failures since the last success or stabilisation. */
  lemma {:induction false} CounterCounts(s: System, ws: seq<Write>, dep: DeploymentId)
    requires Lives(s, ws, dep)
    ensures dep in Run(s, ws).db.health
    ensures Run(s, ws).db.health[dep].failures == FailuresAfter(s, ws, dep, s.db.health[dep].failures)
    decreases |ws|
  {
    hide SystemOk, Perform, Follows;
    if ws != [] {
      EveryWriteFollows(s.db, ws[0], dep);
      CounterCounts(Next(s, ws[0]), ws[1..], dep);
    }
  }

  /** `healthy` is never a leftover: no failures are counted and no unhealthy notice is outstanding. */
  lemma HealthyMeansClear(s: System, ws: seq<Write>, dep: DeploymentId)
    requires SystemOk(s) && AllowedRun(s, ws) && Lives(s, ws, dep)
    ensures var h := Run(s, ws).db.health; dep in h && (h[dep].status == Healthy ==> h[dep].failures == 0 && !h[dep].notified)
  {
    RunKeeps(s, ws);
    CounterCounts(s, ws, dep);
  }

  /** A first deploy starts with the counter at zero and the latch clear. */
  lemma BornQuiet(db: Db, newId: DeploymentId, i: DeployInput, now: int)
    requires Inv(db) && newId !in db.deployments && Deploy(db, newId, i, now).reply == Ok(newId)
    ensures newId in Deploy(db, newId, i, now).db.health
    ensures Deploy(db, newId, i, now).db.health[newId] == Health(0, Starting, 0, false)
  {
    assert newId !in db.health.Keys;
  }
}
