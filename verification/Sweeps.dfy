/** The resumable retention sweeps of internal/storage/retention.go over whole runs: competing sweepers, stale
    pages, early budget breaks, crashes between slices, and every other write in between. */
module Sweeps {
  import opened Schema
  import opened Transactions
  import opened Lifecycle
  import opened Retention
  import opened Writes
  import opened History
  import Gains

  // ---- What one slice deletes -----------------------------------------------------------------------

  /** The rowids a slice rechecks: the candidates it takes that looked eligible when the page was read. */
  function Targets(p: Page, taken: nat): set<nat>
    requires taken <= |p.ids|
  {
    set i | 0 <= i < taken && p.ids[i].eligible :: p.ids[i].id
  }

  lemma TargetsGrow(p: Page, taken: nat)
    requires taken < |p.ids|
    ensures Targets(p, taken + 1) == if p.ids[taken].eligible then Targets(p, taken) + {p.ids[taken].id} else Targets(p, taken)
  {
    forall x | x in Targets(p, taken) ensures x in Targets(p, taken + 1) {
      var i :| 0 <= i < taken && p.ids[i].eligible && p.ids[i].id == x;
    }
    if p.ids[taken].eligible {
      assert p.ids[taken].id in Targets(p, taken + 1);
    }
  }

  /** An event and its deliveries as one slice leaves them. */
  ghost predicate Pruned(a: Db, b: Db, targets: set<nat>, now: int) {
    && b == a.(events := b.events, deliveries := b.deliveries)
    && (forall o :: o in b.events <==> o in a.events && !(a.events[o].rowid in targets && Outlived(a, o, now)))
    && (forall o :: o in b.events ==> b.events[o] == a.events[o])
    && (forall k :: k in b.deliveries <==> k in a.deliveries && (k.outbox in b.events || k.outbox !in a.events))
    && (forall k :: k in b.deliveries ==> b.deliveries[k] == a.deliveries[k])
  }

  lemma PrunableStays(a: Db, b: Db, targets: set<nat>, now: int, o: OutboxId)
    requires Pruned(a, b, targets, now) && o in b.events
    ensures Outlived(b, o, now) <==> Outlived(a, o, now)
  {
    assert forall k :: k in a.deliveries && k.outbox == o ==> k in b.deliveries;
  }

  lemma DeleteEventPrunes(a: Db, b: Db, targets: set<nat>, id: nat, now: int)
    requires Pruned(a, b, targets, now)
    ensures Pruned(a, DeleteEvent(b, id, now), targets + {id}, now)
  {
    forall o | o in b.events ensures Prunable(b, o, now) <==> Outlived(a, o, now) {
      PrunableStays(a, b, targets, now, o);
      OutlivedIsPrunable(b, o, now);
    }
  }

  lemma NothingPruned(db: Db, p: Page, now: int)
    ensures Pruned(db, db, Targets(p, 0), now)
  {
  }

  lemma CandidatePrunes(a: Db, b: Db, p: Page, taken: nat, now: int)
    requires taken < |p.ids| && Pruned(a, b, Targets(p, taken), now)
    ensures Pruned(a, DeleteCandidate(b, OutboxSweep, p, p.ids[taken], now), Targets(p, taken + 1), now)
  {
    TargetsGrow(p, taken);
    if p.ids[taken].eligible {
      DeleteEventPrunes(a, b, Targets(p, taken), p.ids[taken].id, now);
    }
  }

  /** No delivery that is pending or being sent is lost, nor its event. */
  ghost predicate KeepsQueued(a: Db, b: Db) {
    forall k :: k in a.deliveries && (a.deliveries[k].status == Pending || a.deliveries[k].status == Sending) ==>
      && k in b.deliveries && b.deliveries[k] == a.deliveries[k]
      && (k.outbox in a.events ==> k.outbox in b.events && b.events[k.outbox] == a.events[k.outbox])
  }

  /** Whatever page a sweeper comes with, however stale: an outbox slice deletes exactly the rows it targets that
      are, at the moment of the write, past their retention with no delivery pending or leased. */
  lemma {:induction false} OutboxSliceDeletes(db: Db, p: Page, taken: nat, now: int)
    requires taken <= |p.ids|
    ensures Pruned(db, DeleteAll(db, OutboxSweep, p, taken, now), Targets(p, taken), now)
    ensures KeepsQueued(db, DeleteAll(db, OutboxSweep, p, taken, now))
  {
    if taken == 0 {
      NothingPruned(db, p, now);
    } else {
      OutboxSliceDeletes(db, p, taken - 1, now);
      CandidatePrunes(db, DeleteAll(db, OutboxSweep, p, taken - 1, now), p, taken - 1, now);
    }
  }

  lemma NoTargets(p: Page)
    ensures Targets(p, 0) == {}
  {
  }

  /** A ledger slice deletes exactly the receipts it targets whose generation has been retired for longer than the
      replay horizon and that no retained event refers to. */
  lemma {:induction false} LedgerSliceDeletes(db: Db, p: Page, taken: nat, now: int)
    requires taken <= |p.ids|
    ensures var b := DeleteAll(db, LedgerSweep, p, taken, now);
      && b == db.(ledger := b.ledger)
      && (forall t :: t in b.ledger <==>
           t in db.ledger && !(t.dep == p.dep && t.gen == p.gen && t.seqno in Targets(p, taken) && Forgettable(db, t, now)))
      && (forall t :: t in b.ledger ==> b.ledger[t] == db.ledger[t])
  {
    hide Forgettable, Disposable, Targets;
    if taken == 0 {
      NoTargets(p);
    } else {
      var mid := DeleteAll(db, LedgerSweep, p, taken - 1, now);
      LedgerSliceDeletes(db, p, taken - 1, now);
      TargetsGrow(p, taken - 1);
      if p.ids[taken - 1].eligible {
        DisposableStays(db, mid, TxKey(p.dep, p.gen, p.ids[taken - 1].id), now);
        ForgettableIsDisposable(db, TxKey(p.dep, p.gen, p.ids[taken - 1].id), now);
      }
    }
  }

  lemma DisposableStays(a: Db, b: Db, t: TxKey, now: int)
    requires b == a.(ledger := b.ledger)
    ensures Disposable(b, t, now) <==> Disposable(a, t, now)
  {
  }

  // ---- One slice, column by column ------------------------------------------------------------------------

  /** The slice rechecks this row: it takes it, and the row looked eligible when the page was read. */
  ghost predicate Rechecks(p: Page, taken: nat, id: nat) {
    exists i :: 0 <= i < taken <= |p.ids| && p.ids[i].eligible && p.ids[i].id == id
  }

  /** An outbox slice deletes the events it rechecks that are outlived, their deliveries with them, and no more. */
  ghost predicate SweepsEvents(a: Db, b: Db, p: Page, taken: nat, now: int) {
    && b == a.(events := b.events, deliveries := b.deliveries, cursors := b.cursors)
    && (forall o :: o in b.events <==> o in a.events && !(Rechecks(p, taken, a.events[o].rowid) && Outlived(a, o, now)))
    && (forall o :: o in b.events ==> b.events[o] == a.events[o])
    && (forall k :: k in b.deliveries <==> k in a.deliveries && (k.outbox in b.events || k.outbox !in a.events))
    && (forall k :: k in b.deliveries ==> b.deliveries[k] == a.deliveries[k])
  }

  /** A ledger slice deletes the receipts it rechecks that are forgettable, and no more. */
  ghost predicate SweepsReceipts(a: Db, b: Db, p: Page, taken: nat, now: int) {
    && b == a.(ledger := b.ledger, cursors := b.cursors)
    && (forall t :: t in b.ledger <==>
          t in a.ledger && !(t.dep == p.dep && t.gen == p.gen && Rechecks(p, taken, t.seqno) && Forgettable(a, t, now)))
    && (forall t :: t in b.ledger ==> b.ledger[t] == a.ledger[t])
  }

  lemma RechecksTargets(p: Page, taken: nat, id: nat)
    requires taken <= |p.ids|
    ensures Rechecks(p, taken, id) <==> id in Targets(p, taken)
  {
  }

  lemma DeletesColumns(db: Db, name: SweepName, p: Page, taken: nat, now: int)
    requires taken <= |p.ids|
    ensures var b := DeleteAll(db, name, p, taken, now);
      && KeepsQueued(db, b)
      && if name == OutboxSweep then SweepsEvents(db, b, p, taken, now) else SweepsReceipts(db, b, p, taken, now)
  {
    forall id ensures Rechecks(p, taken, id) <==> id in Targets(p, taken) {
      RechecksTargets(p, taken, id);
    }
    if name == OutboxSweep {
      OutboxSliceDeletes(db, p, taken, now);
    } else {
      LedgerSliceDeletes(db, p, taken, now);
    }
  }

  /** What prune answers, and what it leaves, for whatever page it comes with. */
  ghost predicate SliceEnds(a: Db, b: Db, name: SweepName, p: Page, taken: nat, now: int, r: Sweep) {
    && KeepsQueued(a, b)
    && match r
       case Idle(until) => p.before.through == 0 && p.before.nextSweep == until > now && b == a
       case Lost =>
         !(p.before.through == 0 && p.before.nextSweep > now) && CursorOf(a, name) != p.before && b == a
       case Advanced(scanned, more) =>
         && !(p.before.through == 0 && p.before.nextSweep > now) && CursorOf(a, name) == p.before
         && scanned == taken && more == !p.complete
         && if name == OutboxSweep then SweepsEvents(a, b, p, taken, now) else SweepsReceipts(a, b, p, taken, now)
  }

  /** Moving the cursor deletes nothing. */
  lemma EventsAside(a: Db, b: Db, p: Page, taken: nat, now: int, cursors: map<SweepName, Cursor>)
    requires SweepsEvents(a, b, p, taken, now)
    ensures SweepsEvents(a, b.(cursors := cursors), p, taken, now)
  {
    hide Outlived, Rechecks;
    var c := b.(cursors := cursors);
    assert c == a.(events := c.events, deliveries := c.deliveries, cursors := c.cursors);
  }

  lemma ReceiptsAside(a: Db, b: Db, p: Page, taken: nat, now: int, cursors: map<SweepName, Cursor>)
    requires SweepsReceipts(a, b, p, taken, now)
    ensures SweepsReceipts(a, b.(cursors := cursors), p, taken, now)
  {
    hide Forgettable, Rechecks;
    var c := b.(cursors := cursors);
    assert c == a.(ledger := c.ledger, cursors := c.cursors);
  }

  lemma QueuedAside(a: Db, b: Db, cursors: map<SweepName, Cursor>)
    requires KeepsQueued(a, b)
    ensures KeepsQueued(a, b.(cursors := cursors))
  {
  }

  lemma PruneColumns(db: Db, name: SweepName, p: Page, taken: nat, now: int)
    requires taken <= |p.ids|
    ensures var o := Prune(db, name, p, taken, now); o.reply.Ok? && SliceEnds(db, o.db, name, p, taken, now, o.reply.value)
  {
    hide SweepsEvents, SweepsReceipts, DeleteAll;
    DeletesColumns(db, name, p, taken, now);
    var swept := DeleteAll(db, name, p, taken, now);
    var cursors := swept.cursors[name := Progress(name, p, taken, now)];
    QueuedAside(db, swept, cursors);
    if name == OutboxSweep {
      EventsAside(db, swept, p, taken, now, cursors);
    } else {
      ReceiptsAside(db, swept, p, taken, now, cursors);
    }
  }

  // ---- Who moves a cursor -------------------------------------------------------------------------------

  lemma StatusCursors(db: Db, id: DeploymentId, from: Status, to: Status, expires: Option<int>, now: int)
    ensures SetStatus(db, id, from, to, expires, now).db.cursors == db.cursors
  {
  }

  lemma EditCursors(db: Db, id: DeploymentId, base: nat, state: Json, now: int)
    ensures ReplaceState(db, id, base, state, now).db.cursors == db.cursors
  {
    hide RetireAll;
  }

  lemma ClearCursors(db: Db, id: DeploymentId, now: int)
    ensures ClearCheckpoints(db, id, now).db.cursors == db.cursors
  {
    hide RetireAll;
  }

  lemma FencingCursors(db: Db, w: Write)
    requires Fencing(w)
    ensures Perform(db, w).cursors == db.cursors
  {
    hide Perform, SetStatus, ReplaceState, ClearCheckpoints, RetireAll;
    match w
    case RecoverDaemon(now) => Gains.RecoverPerforms(db, now);
    case ExpireDue(now) => Gains.ExpirePerforms(db, now);
    case ArchiveOne(id, now) => Gains.ArchivePerforms(db, id, now);
    case PauseOne(id, now) => Gains.PausePerforms(db, id, now); StatusCursors(db, id, Active, Inactive, None, now);
    case ResumeOne(id, expires, now) => Gains.ResumePerforms(db, id, expires, now); StatusCursors(db, id, Inactive, Active, expires, now);
    case EditState(id, base, state, now) => Gains.EditPerforms(db, id, base, state, now); EditCursors(db, id, base, state, now);
    case ClearSources(id, now) => Gains.ClearPerforms(db, id, now); ClearCursors(db, id, now);
  }

  lemma DeployCursors(db: Db, newId: DeploymentId, i: DeployInput, now: int)
    ensures Deploy(db, newId, i, now).db.cursors == db.cursors
  {
  }

  lemma PurgeCursors(db: Db, dep: DeploymentId, force: bool)
    ensures Purge(db, dep, force).db.cursors == db.cursors
  {
  }

  lemma ActivateCursors(db: Db, s: Snapshot, fingerprint: string, token: Token, now: int)
    ensures Activate(db, s, fingerprint, token, now).db.cursors == db.cursors
  {
    var b := Activate(db, s, fingerprint, token, now).db;
    assert b == db || b == db.(deployments := b.deployments, generations := b.generations, health := b.health);
  }

  lemma DeploymentCursors(db: Db, w: Write)
    requires w.DeployOne? || w.PurgeOne? || w.OpenGeneration?
    ensures Perform(db, w).cursors == db.cursors
  {
    match w
    case DeployOne(newId, input, now) => DeployCursors(db, newId, input, now);
    case PurgeOne(dep, force) => PurgeCursors(db, dep, force);
    case OpenGeneration(snapshot, fingerprint, token, now) => ActivateCursors(db, snapshot, fingerprint, token, now);
  }

  lemma FrameCursors(db: Db, f: Frame, now: int)
    ensures Apply(db, f, now).db.cursors == db.cursors
  {
    if TakesEffect(db, f, now) {
      EffectShape(db, f, now);
    } else {
      NoEffect(db, f, now);
    }
  }

  lemma SliceCursors(db: Db, name: SweepName, p: Page, taken: nat, now: int)
    requires taken <= |p.ids|
    ensures DeleteAll(db, name, p, taken, now).cursors == db.cursors
  {
    if name == OutboxSweep {
      OutboxSliceDeletes(db, p, taken, now);
    } else {
      LedgerSliceDeletes(db, p, taken, now);
    }
  }

  /** Only a slice of a sweep moves the cursor of that sweep. */
  lemma OthersLeaveCursor(db: Db, w: Write, name: SweepName)
    requires !(w.PruneSlice? && w.name == name)
    ensures CursorOf(Perform(db, w), name) == CursorOf(db, name)
  {
    hide Perform;
    if w.ApplyFrame? {
      FrameWrites(db, w);
    } else if w.DeployOne? || w.PurgeOne? || w.OpenGeneration? {
      DeploymentCursors(db, w);
    } else if Fencing(w) {
      FencingCursors(db, w);
    } else if Marking(w) {
      MarkingFrame(db, w);
    } else if Watching(w) {
      WatchingFrame(db, w);
    } else if Delivering(w) {
      DeliveringFrame(db, w);
    } else {
      OtherSlice(db, w, name);
    }
  }

  lemma FrameWrites(db: Db, w: Write)
    requires w.ApplyFrame?
    ensures Perform(db, w).cursors == db.cursors
  {
    hide Apply;
    FrameCursors(db, w.frame, w.now);
  }

  lemma OtherSlice(db: Db, w: Write, name: SweepName)
    requires w.PruneSlice? && w.name != name
    ensures CursorOf(Perform(db, w), name) == CursorOf(db, name)
  {
    hide DeleteAll;
    if w.taken <= |w.page.ids| {
      SliceCursors(db, w.name, w.page, w.taken, w.now);
    }
  }

  // ---- Competing sweepers ---------------------------------------------------------------------------------

  /** A page some sweeper has discovered and not yet written, and when. */
  datatype Plan = Plan(page: Page, now: int)

  /** The store and every sweeper's plan. A sweeper that crashes never writes its plan. */
  datatype Sweepers = Sweepers(sys: System, plans: map<nat, Plan>)

  const IDLE := Sweepers(START, map[])

  datatype Move = Other(write: Write) | Discover(who: nat, page: Page, now: int) | Slice(who: nat, taken: nat, at: int)

  /** `page` is what discovery reads in one snapshot of `db`. */
  ghost predicate Reads(db: Db, name: SweepName, page: Page, now: int) {
    if name == OutboxSweep then page == DiscoverEvents(db, now) else DiscoversReceipts(db, now, page)
  }

  /** A slice takes at least one candidate if its page has any. */
  predicate Takes(p: Page, taken: nat) {
    taken <= |p.ids| && (p.ids == [] || taken > 0)
  }

  ghost predicate Able(name: SweepName, s: Sweepers, m: Move) {
    match m
    case Other(w) => Allowed(s.sys, w) && !(w.PruneSlice? && w.name == name)
    case Discover(_, page, now) => Reads(s.sys.db, name, page, now)
    case Slice(who, taken, _) => who in s.plans && Takes(s.plans[who].page, taken)
  }

  /** The slice is due and its sweeper owns the cursor. */
  predicate Advances(name: SweepName, s: Sweepers, who: nat)
    requires who in s.plans
  {
    !Resting(s.plans[who].page.before, s.plans[who].now) && CursorOf(s.sys.db, name) == s.plans[who].page.before
  }

  ghost function Moved(name: SweepName, s: Sweepers, m: Move): Sweepers
    requires Able(name, s, m)
  {
    match m
    case Other(w) => s.(sys := Next(s.sys, w))
    case Discover(who, page, now) => s.(plans := s.plans[who := Plan(page, now)])
    case Slice(who, taken, _) => s.(sys := Next(s.sys, PruneSlice(name, s.plans[who].page, taken, s.plans[who].now)))
  }

  ghost predicate Sweeping(name: SweepName, s: Sweepers, ms: seq<Move>)
    decreases |ms|
  {
    ms == [] || (Able(name, s, ms[0]) && Sweeping(name, Moved(name, s, ms[0]), ms[1..]))
  }

  ghost function Swept(name: SweepName, s: Sweepers, ms: seq<Move>): Sweepers
    requires Sweeping(name, s, ms)
    decreases |ms|
  {
    if ms == [] then s else Swept(name, Moved(name, s, ms[0]), ms[1..])
  }

  lemma MoveKeepsSystem(name: SweepName, s: Sweepers, m: Move)
    requires SystemOk(s.sys) && Able(name, s, m)
    ensures SystemOk(Moved(name, s, m).sys)
  {
    match m
    case Other(w) => NextKeeps(s.sys, w);
    case Discover(_, _, _) =>
    case Slice(who, taken, _) => NextKeeps(s.sys, PruneSlice(name, s.plans[who].page, taken, s.plans[who].now));
  }

  lemma {:induction false} SweepingKeepsSystem(name: SweepName, s: Sweepers, ms: seq<Move>)
    requires SystemOk(s.sys) && Sweeping(name, s, ms)
    ensures SystemOk(Swept(name, s, ms).sys)
    decreases |ms|
  {
    if ms != [] {
      MoveKeepsSystem(name, s, ms[0]);
      SweepingKeepsSystem(name, Moved(name, s, ms[0]), ms[1..]);
    }
  }

  lemma SliceMoves(name: SweepName, s: Sweepers, who: nat, taken: nat, at: int)
    requires Able(name, s, Slice(who, taken, at))
    ensures var db := Moved(name, s, Slice(who, taken, at)).sys.db;
      && (Advances(name, s, who) ==> CursorOf(db, name) == Progress(name, s.plans[who].page, taken, s.plans[who].now))
      && (!Advances(name, s, who) ==> db == s.sys.db)
  {
  }

  lemma OtherMoves(name: SweepName, s: Sweepers, w: Write)
    requires Able(name, s, Other(w))
    ensures CursorOf(Moved(name, s, Other(w)).sys.db, name) == CursorOf(s.sys.db, name)
  {
    OthersLeaveCursor(s.sys.db, w, name);
  }

  // ---- The outbox sweep: what it visits, keeps and passes --------------------------------------------------

  /** What a page's discovery saw: the rows of that instant, those of them that have been there ever since, and
      which sweep was under way. */
  datatype Seen = Seen(rows: set<nat>, since: set<nat>, sweep: nat)

  /** The history of the outbox sweep: its number, the rows it took in order, the rows present when it started that
      have been there ever since, and the rows its cursor passed while the page it was moved by did not list them. */
  datatype Record = Record(sweep: nat, visited: seq<nat>, kept: set<nat>, blind: set<nat>, seen: map<nat, Seen>)

  const BLANK := Record(0, [], {}, {}, map[])

  function Taken(p: Page, taken: nat): seq<nat>
    requires taken <= |p.ids|
  {
    seq(taken, i requires 0 <= i < taken => p.ids[i].id)
  }

  function Listed(p: Page): set<nat> {
    set i | 0 <= i < |p.ids| :: p.ids[i].id
  }

  /** How far a slice moves the cursor. */
  function Reached(p: Page, taken: nat): nat
    requires taken <= |p.ids|
  {
    if p.complete then p.next.through else if taken == 0 then p.next.after else p.ids[taken - 1].id
  }

  /** What a sweeper could find out by reading the rows again before it writes: those it is about to pass that are
      not on its page. */
  function Unlisted(db: Db, p: Page, taken: nat): set<nat>
    requires taken <= |p.ids|
  {
    set r | r in EventRowids(db) && p.next.after < r <= Reached(p, taken) && r !in Listed(p)
  }

  function Outlive(h: Record, rows: set<nat>): Record {
    h.(kept := h.kept * rows, seen := map k | k in h.seen :: h.seen[k].(since := h.seen[k].since * rows))
  }

  /** A first slice starts a new history. */
  function Opened(h: Record, p: Page, who: nat): Record
    requires who in h.seen
  {
    if p.before.through == 0 then h.(visited := [], kept := h.seen[who].since, blind := {}) else h
  }

  function Extended(h: Record, db: Db, p: Page, taken: nat): Record
    requires taken <= |p.ids|
  {
    h.(sweep := if p.complete then h.sweep + 1 else h.sweep,
       visited := h.visited + Taken(p, taken), blind := h.blind + Unlisted(db, p, taken))
  }

  ghost function Noted(h: Record, s: Sweepers, m: Move): Record
    requires Able(OutboxSweep, s, m) && h.seen.Keys == s.plans.Keys
  {
    var rows := EventRowids(Moved(OutboxSweep, s, m).sys.db);
    match m
    case Other(_) => Outlive(h, rows)
    case Discover(who, _, _) => h.(seen := h.seen[who := Seen(rows, rows, h.sweep)])
    case Slice(who, taken, _) =>
      if !Advances(OutboxSweep, s, who) then h
      else Outlive(Extended(Opened(h, s.plans[who].page, who), s.sys.db, s.plans[who].page, taken), rows)
  }

  lemma NotedPlans(h: Record, s: Sweepers, m: Move)
    requires Able(OutboxSweep, s, m) && h.seen.Keys == s.plans.Keys
    ensures Noted(h, s, m).seen.Keys == Moved(OutboxSweep, s, m).plans.Keys
  {
  }

  // ---- What every run of outbox sweepers keeps ----------------------------------------------------------------

  predicate Increasing(s: seq<nat>) {
    forall i, j :: 0 <= i < j < |s| ==> s[i] < s[j]
  }

  /** Up to `after`: rows are visited once and in order, and of the kept ones exactly those no slice was blind to. */
  ghost predicate Covered(visited: seq<nat>, kept: set<nat>, blind: set<nat>, after: nat) {
    && Increasing(visited)
    && (forall r :: r in visited ==> 0 < r <= after)
    && (forall r :: r in blind ==> r <= after)
    && (forall r :: r in kept && 0 < r <= after ==> (r in visited <==> r !in blind))
  }

  /** The page is what discovery makes of `rows`, starting from `before`. */
  ghost predicate PageOf(p: Page, rows: set<nat>) {
    var next := Begin(p.before, Highest(rows));
    var ids := Ascending(InRange(rows, next.after, next.through), BATCH);
    && p.next == next && |p.ids| == |ids| && (forall i :: 0 <= i < |ids| ==> p.ids[i].id == ids[i])
    && (p.complete <==> ids == [])
  }

  /** A plan of the sweep under way has not been overtaken, and whoever still owns the cursor has seen every kept row. */
  ghost predicate SeenOk(plan: Plan, seen: Seen, sweep: nat, c: Cursor, kept: set<nat>) {
    && seen.since <= seen.rows && seen.sweep <= sweep
    && (!Resting(plan.page.before, plan.now) ==> PageOf(plan.page, seen.rows))
    && (seen.sweep == sweep && plan.page.before.through != 0 ==>
          && c.through != 0 && plan.page.before.after <= c.after
          && (plan.page.before == c ==> kept <= seen.rows))
  }

  ghost predicate ProgressOk(c: Cursor, h: Record) {
    c.through != 0 ==>
      c.after <= c.through && Covered(h.visited, h.kept, h.blind, c.after) && forall r :: r in h.kept ==> r <= c.through
  }

  ghost predicate PlansOk(plans: map<nat, Plan>, seen: map<nat, Seen>, sweep: nat, c: Cursor, kept: set<nat>) {
    seen.Keys == plans.Keys && forall k :: k in plans ==> SeenOk(plans[k], seen[k], sweep, c, kept)
  }

  ghost predicate StillThere(h: Record, rows: set<nat>) {
    h.kept <= rows && forall k :: k in h.seen ==> h.seen[k].since <= rows
  }

  ghost predicate RecordOk(s: Sweepers, h: Record) {
    && StillThere(h, EventRowids(s.sys.db))
    && ProgressOk(CursorOf(s.sys.db, OutboxSweep), h)
    && PlansOk(s.plans, h.seen, h.sweep, CursorOf(s.sys.db, OutboxSweep), h.kept)
  }

  lemma OutliveKeeps(plans: map<nat, Plan>, h: Record, c: Cursor, rows: set<nat>)
    requires ProgressOk(c, h) && PlansOk(plans, h.seen, h.sweep, c, h.kept)
    ensures var g := Outlive(h, rows);
      StillThere(g, rows) && ProgressOk(c, g) && PlansOk(plans, g.seen, g.sweep, c, g.kept)
  {
  }

  lemma OtherNoted(s: Sweepers, h: Record, w: Write)
    requires RecordOk(s, h) && Able(OutboxSweep, s, Other(w))
    ensures RecordOk(Moved(OutboxSweep, s, Other(w)), Noted(h, s, Other(w)))
  {
    OtherMoves(OutboxSweep, s, w);
    OutliveKeeps(s.plans, h, CursorOf(s.sys.db, OutboxSweep), EventRowids(Moved(OutboxSweep, s, Other(w)).sys.db));
  }

  lemma DiscoveredPage(db: Db, now: int)
    ensures var p := DiscoverEvents(db, now);
      p.before == CursorOf(db, OutboxSweep) && (!Resting(p.before, now) ==> PageOf(p, EventRowids(db)))
  {
  }

  lemma DiscoverNoted(s: Sweepers, h: Record, who: nat, page: Page, now: int)
    requires RecordOk(s, h) && Able(OutboxSweep, s, Discover(who, page, now))
    ensures RecordOk(Moved(OutboxSweep, s, Discover(who, page, now)), Noted(h, s, Discover(who, page, now)))
  {
    DiscoveredPage(s.sys.db, now);
  }

  // ---- One slice ----------------------------------------------------------------------------------------------

  lemma ListedRows(p: Page, rows: set<nat>, r: nat)
    requires PageOf(p, rows)
    ensures r in Listed(p) <==> r in Ascending(InRange(rows, p.next.after, p.next.through), BATCH)
  {
    var ids := Ascending(InRange(rows, p.next.after, p.next.through), BATCH);
    if r in ids {
      var i :| 0 <= i < |ids| && ids[i] == r;
      assert p.ids[i].id == r;
    }
  }

  lemma TakenOrdered(p: Page, rows: set<nat>, taken: nat)
    requires PageOf(p, rows) && taken <= |p.ids|
    ensures Increasing(Taken(p, taken))
    ensures forall r :: r in Taken(p, taken) ==> p.next.after < r <= p.next.through && r <= p.ids[taken - 1].id
  {
    var ids := Ascending(InRange(rows, p.next.after, p.next.through), BATCH);
    assert forall i :: 0 <= i < taken ==> Taken(p, taken)[i] == ids[i];
    forall r | r in Taken(p, taken) ensures p.next.after < r <= p.next.through && r <= p.ids[taken - 1].id {
      var k :| 0 <= k < taken && Taken(p, taken)[k] == r;
      assert ids[k] in InRange(rows, p.next.after, p.next.through);
    }
  }

  lemma LastTaken(p: Page, rows: set<nat>, taken: nat)
    requires PageOf(p, rows) && 0 < taken <= |p.ids|
    ensures p.next.after < p.ids[taken - 1].id <= p.next.through
  {
    TakenOrdered(p, rows, taken);
    assert Taken(p, taken)[taken - 1] == p.ids[taken - 1].id;
  }

  /** Of the rows a slice passes it takes exactly those on its page. */
  lemma PassedIffListed(p: Page, rows: set<nat>, taken: nat, r: nat)
    requires PageOf(p, rows) && Takes(p, taken) && p.next.after < r <= Reached(p, taken)
    ensures r in Taken(p, taken) <==> r in Listed(p)
  {
    var ids := Ascending(InRange(rows, p.next.after, p.next.through), BATCH);
    ListedRows(p, rows, r);
    if r in ids {
      var k :| 0 <= k < |ids| && ids[k] == r;
      assert k < taken ==> Taken(p, taken)[k] == r;
      assert ids[taken - 1] == p.ids[taken - 1].id;
    }
    if r in Taken(p, taken) {
      var k :| 0 <= k < taken && Taken(p, taken)[k] == r;
      assert ids[k] == r;
    }
  }

  lemma IncreasingJoin(a: seq<nat>, b: seq<nat>, m: nat)
    requires Increasing(a) && Increasing(b) && (forall r :: r in a ==> r <= m) && (forall r :: r in b ==> m < r)
    ensures Increasing(a + b)
  {
    forall i, j | 0 <= i < j < |a + b| ensures (a + b)[i] < (a + b)[j] {
      if i < |a| <= j {
        assert a[i] in a && b[j - |a|] in b;
      }
    }
  }

  lemma ReachedOnward(p: Page, rows: set<nat>, taken: nat)
    requires PageOf(p, rows) && Takes(p, taken) && p.next.after <= p.next.through
    ensures p.next.after <= Reached(p, taken) <= p.next.through
    ensures forall r :: r in Taken(p, taken) ==> p.next.after < r <= Reached(p, taken)
  {
    TakenOrdered(p, rows, taken);
    if taken > 0 {
      LastTaken(p, rows, taken);
    }
  }

  lemma SliceCovers(visited: seq<nat>, kept: set<nat>, blind: set<nat>, db: Db, p: Page, rows: set<nat>, taken: nat)
    requires PageOf(p, rows) && Takes(p, taken) && p.next.after <= p.next.through
    requires Covered(visited, kept, blind, p.next.after) && kept <= EventRowids(db)
    ensures Covered(visited + Taken(p, taken), kept, blind + Unlisted(db, p, taken), Reached(p, taken))
  {
    ReachedOnward(p, rows, taken);
    TakenOrdered(p, rows, taken);
    IncreasingJoin(visited, Taken(p, taken), p.next.after);
    forall r | r in kept && 0 < r <= Reached(p, taken)
      ensures r in visited + Taken(p, taken) <==> r !in blind + Unlisted(db, p, taken)
    {
      if r > p.next.after {
        PassedIffListed(p, rows, taken, r);
      }
    }
  }

  lemma OpenedCovers(s: Sweepers, h: Record, who: nat)
    requires RecordOk(s, h) && who in s.plans && Advances(OutboxSweep, s, who)
    ensures who in h.seen && PageOf(s.plans[who].page, h.seen[who].rows)
    ensures var p := s.plans[who].page;
      var g := Opened(h, p, who);
      && p.next.after <= p.next.through && Covered(g.visited, g.kept, g.blind, p.next.after)
      && g.kept <= EventRowids(s.sys.db) && forall r :: r in g.kept ==> r <= p.next.through
  {
    assert SeenOk(s.plans[who], h.seen[who], h.sweep, CursorOf(s.sys.db, OutboxSweep), h.kept);
  }

  lemma PlansAdvance(plans: map<nat, Plan>, seen: map<nat, Seen>, sweep: nat, c: Cursor, d: Cursor, kept: set<nat>,
                     keptNow: set<nat>)
    requires PlansOk(plans, seen, sweep, c, kept) && d.through != 0 && (c.through != 0 ==> c.after < d.after)
    ensures PlansOk(plans, seen, sweep, d, keptNow)
  {
  }

  lemma PlansEnd(plans: map<nat, Plan>, seen: map<nat, Seen>, sweep: nat, c: Cursor, d: Cursor, kept: set<nat>,
                 keptNow: set<nat>)
    requires PlansOk(plans, seen, sweep, c, kept)
    ensures PlansOk(plans, seen, sweep + 1, d, keptNow)
  {
  }

  /** The history a slice leaves, before the rows it deleted are dropped from it. */
  lemma SliceExtends(s: Sweepers, h: Record, who: nat, taken: nat)
    requires RecordOk(s, h) && who in s.plans && Takes(s.plans[who].page, taken) && Advances(OutboxSweep, s, who)
    ensures who in h.seen
    ensures var p := s.plans[who].page;
      var g := Extended(Opened(h, p, who), s.sys.db, p, taken);
      var d := Progress(OutboxSweep, p, taken, s.plans[who].now);
      && Covered(g.visited, g.kept, g.blind, Reached(p, taken)) && (forall r :: r in g.kept ==> r <= p.next.through)
      && ProgressOk(d, g) && PlansOk(s.plans, g.seen, g.sweep, d, g.kept)
  {
    var p := s.plans[who].page;
    var o := Opened(h, p, who);
    var d := Progress(OutboxSweep, p, taken, s.plans[who].now);
    OpenedCovers(s, h, who);
    SliceCovers(o.visited, o.kept, o.blind, s.sys.db, p, h.seen[who].rows, taken);
    ReachedOnward(p, h.seen[who].rows, taken);
    if p.complete {
      PlansEnd(s.plans, h.seen, h.sweep, CursorOf(s.sys.db, OutboxSweep), d, h.kept, o.kept);
    } else {
      LastTaken(p, h.seen[who].rows, taken);
      PlansAdvance(s.plans, h.seen, h.sweep, CursorOf(s.sys.db, OutboxSweep), d, h.kept, o.kept);
    }
  }

  lemma SliceNoted(s: Sweepers, h: Record, who: nat, taken: nat, at: int)
    requires RecordOk(s, h) && Able(OutboxSweep, s, Slice(who, taken, at))
    ensures RecordOk(Moved(OutboxSweep, s, Slice(who, taken, at)), Noted(h, s, Slice(who, taken, at)))
  {
    SliceMoves(OutboxSweep, s, who, taken, at);
    if Advances(OutboxSweep, s, who) {
      var p := s.plans[who].page;
      SliceExtends(s, h, who, taken);
      OutliveKeeps(s.plans, Extended(Opened(h, p, who), s.sys.db, p, taken), Progress(OutboxSweep, p, taken, s.plans[who].now),
                   EventRowids(Moved(OutboxSweep, s, Slice(who, taken, at)).sys.db));
    }
  }

  lemma MoveNoted(s: Sweepers, h: Record, m: Move)
    requires RecordOk(s, h) && Able(OutboxSweep, s, m)
    ensures RecordOk(Moved(OutboxSweep, s, m), Noted(h, s, m))
  {
    match m
    case Other(w) => OtherNoted(s, h, w);
    case Discover(who, page, now) => DiscoverNoted(s, h, who, page, now);
    case Slice(who, taken, at) => SliceNoted(s, h, who, taken, at);
  }

  // ---- Whole runs of outbox sweepers ----------------------------------------------------------------------------

  ghost function Recorded(s: Sweepers, h: Record, ms: seq<Move>): Record
    requires Sweeping(OutboxSweep, s, ms) && h.seen.Keys == s.plans.Keys
    decreases |ms|
  {
    if ms == [] then h else
    NotedPlans(h, s, ms[0]);
    Recorded(Moved(OutboxSweep, s, ms[0]), Noted(h, s, ms[0]), ms[1..])
  }

  lemma {:induction false} RunNoted(s: Sweepers, h: Record, ms: seq<Move>)
    requires RecordOk(s, h) && Sweeping(OutboxSweep, s, ms)
    ensures RecordOk(Swept(OutboxSweep, s, ms), Recorded(s, h, ms))
    decreases |ms|
  {
    if ms != [] {
      MoveNoted(s, h, ms[0]);
      RunNoted(Moved(OutboxSweep, s, ms[0]), Noted(h, s, ms[0]), ms[1..]);
    }
  }

  lemma IdleOk()
    ensures SystemOk(IDLE.sys) && RecordOk(IDLE, BLANK)
  {
    StartOk();
  }

  /** This move is the slice that closes a sweep. */
  ghost predicate Closes(s: Sweepers, m: Move) {
    Able(OutboxSweep, s, m) && m.Slice? && Advances(OutboxSweep, s, m.who) && s.plans[m.who].page.complete
  }

  /** In every run of sweepers that compete, sleep and crash at will among all other writes: when a sweep closes, it
      has visited rows once and in increasing order, and a row that was there throughout was visited if and only if
      no slice of the sweep passed it with a page that did not list it. */
  lemma VisitedUnlessUnlisted(ms: seq<Move>, m: Move)
    requires Sweeping(OutboxSweep, IDLE, ms) && Closes(Swept(OutboxSweep, IDLE, ms), m)
    ensures RecordOk(Swept(OutboxSweep, IDLE, ms), Recorded(IDLE, BLANK, ms))
    ensures var h := Noted(Recorded(IDLE, BLANK, ms), Swept(OutboxSweep, IDLE, ms), m);
      Increasing(h.visited) && forall r :: r in h.kept && r > 0 ==> (r in h.visited <==> r !in h.blind)
  {
    var s := Swept(OutboxSweep, IDLE, ms);
    var h := Recorded(IDLE, BLANK, ms);
    IdleOk();
    RunNoted(IDLE, BLANK, ms);
    SliceExtends(s, h, m.who, m.taken);
  }

  // ---- When no page is blind --------------------------------------------------------------------------------------

  /** A slice whose page was read in the sweep it advances. */
  ghost predicate Timely(s: Sweepers, h: Record, m: Move) {
    m.Slice? && m.who in s.plans && m.who in h.seen && Advances(OutboxSweep, s, m.who) ==> h.seen[m.who].sweep == h.sweep
  }

  lemma TimelySees(s: Sweepers, h: Record, who: nat, taken: nat)
    requires RecordOk(s, h) && who in s.plans && Takes(s.plans[who].page, taken) && Advances(OutboxSweep, s, who)
    requires who in h.seen && h.seen[who].sweep == h.sweep
    ensures Opened(h, s.plans[who].page, who).kept !! Unlisted(s.sys.db, s.plans[who].page, taken)
  {
    var p := s.plans[who].page;
    var rows := h.seen[who].rows;
    OpenedCovers(s, h, who);
    assert Opened(h, p, who).kept <= rows;
    ReachedOnward(p, rows, taken);
    forall r | r in Unlisted(s.sys.db, p, taken) ensures r !in rows {
      SeenIsListed(p, rows, taken, r);
    }
  }

  lemma SeenIsListed(p: Page, rows: set<nat>, taken: nat, r: nat)
    requires PageOf(p, rows) && Takes(p, taken) && p.next.after < r <= Reached(p, taken) <= p.next.through
    ensures r in rows ==> r in Listed(p)
  {
    var range := InRange(rows, p.next.after, p.next.through);
    var ids := Ascending(range, BATCH);
    ListedRows(p, rows, r);
    assert r in rows ==> r in range;
    if taken > 0 {
      assert ids[taken - 1] == p.ids[taken - 1].id;
    }
  }

  /** Nothing kept has been passed unlisted. */
  ghost predicate Sighted(s: Sweepers, h: Record) {
    CursorOf(s.sys.db, OutboxSweep).through != 0 ==> h.kept !! h.blind
  }

  lemma TimelyMove(s: Sweepers, h: Record, m: Move)
    requires RecordOk(s, h) && Sighted(s, h) && Able(OutboxSweep, s, m) && Timely(s, h, m)
    ensures Sighted(Moved(OutboxSweep, s, m), Noted(h, s, m))
    ensures Closes(s, m) ==> Noted(h, s, m).kept !! Noted(h, s, m).blind
  {
    match m
    case Other(w) => OtherMoves(OutboxSweep, s, w);
    case Discover(_, _, _) =>
    case Slice(who, taken, at) =>
      SliceMoves(OutboxSweep, s, who, taken, at);
      if Advances(OutboxSweep, s, who) {
        TimelySees(s, h, who, taken);
      }
  }

  // ---- Clocks -----------------------------------------------------------------------------------------------------

  /** Pages are read and slices are written at times that never go back. */
  predicate Ticks(ms: seq<Move>, from: int) {
    ms == [] ||
    (match ms[0]
     case Other(_) => Ticks(ms[1..], from)
     case Discover(_, _, now) => from <= now && Ticks(ms[1..], now)
     case Slice(_, _, at) => from <= at && Ticks(ms[1..], at))
  }

  /** A slice written within half of `limit` after its page was read; a sweeper can check this before it writes. */
  predicate Prompt(s: Sweepers, m: Move, limit: int) {
    m.Slice? && m.who in s.plans && Advances(OutboxSweep, s, m.who) ==> 2 * (m.at - s.plans[m.who].now) < limit
  }

  ghost predicate Prompts(s: Sweepers, ms: seq<Move>, limit: int)
    requires Sweeping(OutboxSweep, s, ms)
    decreases |ms|
  {
    ms == [] || (Prompt(s, ms[0], limit) && Prompts(Moved(OutboxSweep, s, ms[0]), ms[1..], limit))
  }

  /** Pages of earlier sweeps were read before the last close, and more than half an hour separates that from
      anything the sweep under way does. */
  ghost predicate ClockOk(s: Sweepers, h: Record, clock: int, closed: int) {
    var c := CursorOf(s.sys.db, OutboxSweep);
    && h.seen.Keys == s.plans.Keys && closed <= clock
    && (forall k :: k in s.plans ==> s.plans[k].now <= clock && (h.seen[k].sweep < h.sweep ==> s.plans[k].now <= closed))
    && (h.sweep > 0 ==> 2 * ((if c.through == 0 then c.nextSweep else clock) - closed) > HOUR)
  }

  function Clock(m: Move, clock: int): int {
    match m case Other(_) => clock case Discover(_, _, now) => now case Slice(_, _, at) => at
  }

  ghost function Closed(s: Sweepers, m: Move, closed: int): int {
    if Closes(s, m) then m.at else closed
  }

  lemma PromptIsTimely(s: Sweepers, h: Record, m: Move, clock: int, closed: int)
    requires RecordOk(s, h) && ClockOk(s, h, clock, closed) && Able(OutboxSweep, s, m) && Prompt(s, m, HOUR) && clock <= Clock(m, clock)
    ensures Timely(s, h, m)
  {
    if m.Slice? && Advances(OutboxSweep, s, m.who) {
      assert SeenOk(s.plans[m.who], h.seen[m.who], h.sweep, CursorOf(s.sys.db, OutboxSweep), h.kept);
    }
  }

  lemma ClockMove(s: Sweepers, h: Record, m: Move, clock: int, closed: int)
    requires RecordOk(s, h) && ClockOk(s, h, clock, closed) && Able(OutboxSweep, s, m)
    requires Prompt(s, m, HOUR) && Timely(s, h, m) && clock <= Clock(m, clock)
    ensures ClockOk(Moved(OutboxSweep, s, m), Noted(h, s, m), Clock(m, clock), Closed(s, m, closed))
  {
    NotedPlans(h, s, m);
    match m
    case Other(w) => OtherMoves(OutboxSweep, s, w);
    case Discover(_, _, _) =>
    case Slice(who, taken, at) =>
      SliceMoves(OutboxSweep, s, who, taken, at);
      if Advances(OutboxSweep, s, who) && !s.plans[who].page.complete {
        OpenedCovers(s, h, who);
        LastTaken(s.plans[who].page, h.seen[who].rows, taken);
      }
  }

  lemma {:induction false} PromptRun(s: Sweepers, h: Record, ms: seq<Move>, clock: int, closed: int) returns (last: int,
                                     lastClosed: int)
    requires RecordOk(s, h) && Sighted(s, h) && ClockOk(s, h, clock, closed)
    requires Sweeping(OutboxSweep, s, ms) && Prompts(s, ms, HOUR) && Ticks(ms, clock)
    ensures var t := Swept(OutboxSweep, s, ms);
      var g := Recorded(s, h, ms);
      RecordOk(t, g) && Sighted(t, g) && ClockOk(t, g, last, lastClosed)
    ensures last == Latest(ms, clock)
    decreases |ms|
  {
    if ms == [] {
      last, lastClosed := clock, closed;
    } else {
      PromptIsTimely(s, h, ms[0], clock, closed);
      MoveNoted(s, h, ms[0]);
      TimelyMove(s, h, ms[0]);
      ClockMove(s, h, ms[0], clock, closed);
      last, lastClosed := PromptRun(Moved(OutboxSweep, s, ms[0]), Noted(h, s, ms[0]), ms[1..], Clock(ms[0], clock), Closed(s, ms[0], closed));
    }
  }

  function Latest(ms: seq<Move>, from: int): int {
    if ms == [] then from else Latest(ms[1..], Clock(ms[0], from))
  }

  /** If every slice is written less than half an hour after its page was read, no row is ever passed unseen: when a
      sweep closes, every row that was there throughout has been visited exactly once, in increasing order. */
  lemma PromptSweepVisitsEveryRow(ms: seq<Move>, m: Move, from: int)
    requires Sweeping(OutboxSweep, IDLE, ms) && Closes(Swept(OutboxSweep, IDLE, ms), m)
    requires Ticks(ms, from) && Latest(ms, from) <= m.at && Prompts(IDLE, ms, HOUR) && Prompt(Swept(OutboxSweep, IDLE, ms), m, HOUR)
    ensures RecordOk(Swept(OutboxSweep, IDLE, ms), Recorded(IDLE, BLANK, ms))
    ensures var h := Noted(Recorded(IDLE, BLANK, ms), Swept(OutboxSweep, IDLE, ms), m);
      Increasing(h.visited) && forall r :: r in h.kept && r > 0 ==> r in h.visited
  {
    var s, h := Swept(OutboxSweep, IDLE, ms), Recorded(IDLE, BLANK, ms);
    IdleOk();
    var last, closed := PromptRun(IDLE, BLANK, ms, from, from);
    PromptIsTimely(s, h, m, last, closed);
    TimelyMove(s, h, m);
    VisitedUnlessUnlisted(ms, m);
  }
}
