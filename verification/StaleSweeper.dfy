/** A run from an empty store in which a sweep passes a row it never visits: why sweepers have to be prompt. */
module StaleSweeper {
  import opened Schema
  import opened Transactions
  import opened Lifecycle
  import opened HealthRecords
  import opened Retention
  import opened Integrity
  import opened Writes
  import opened History
  import opened Sweeps

  const MINUTE: int := 60_000
  const LONG: int := 10 * HOUR

  /** A deployment whose first failure is notified, and whose events are kept for a long time. */
  function Input(name: string): DeployInput {
    DeployInput(name, "monitor", "config", "artifact", "{}", 1, 1, LONG, None, ["destination"], None)
  }

  // ---- What is known along the run --------------------------------------------------------------------

  /** The next failure of this deployment is notified. */
  ghost predicate Alert(db: Db, dep: DeploymentId) {
    Watched(db, dep) && db.deployments[dep].threshold == 1 && !db.health[dep].notified
  }

  ghost predicate Owns(db: Db, owners: map<nat, DeploymentId>) {
    && EventRowids(db) == owners.Keys
    && forall o :: o in db.events ==> db.events[o].rowid in owners && owners[db.events[o].rowid] == db.events[o].dep
  }

  /** No event is old enough to be deleted for hours to come. */
  ghost predicate Lasting(db: Db) {
    && (forall d :: d in db.deployments ==> db.deployments[d].retention == LONG)
    && (forall o :: o in db.events ==> db.events[o].createdAt >= 0)
  }

  ghost predicate Nonces(db: Db, n: nat) {
    forall o :: o in db.events ==> o.Random? && o.nonce <= n && db.events[o].eventId == Notice(true, o)
  }

  /** The deployments so far, those still to be notified, the notices so far, whose event each row is, the cursor. */
  ghost predicate Stands(db: Db, deps: set<DeploymentId>, alerts: set<DeploymentId>, n: nat,
                         owners: map<nat, DeploymentId>, c: Cursor) {
    && db.names.Keys <= deps && (forall d :: d in alerts ==> Alert(db, d))
    && Nonces(db, n) && Lasting(db) && Owns(db, owners) && CursorOf(db, OutboxSweep) == c
  }

  // ---- The writes of the run ---------------------------------------------------------------------------

  lemma ValidInput(d: string)
    requires !Blank(d)
    ensures ValidDeploy(Input(d))
  {
    assert "monitor"[0] == 'm' && 'm' in "monitor";
    assert "destination"[0] == 'd';
  }

  lemma DeployShape(db: Db, d: DeploymentId)
    requires d !in db.names && !Blank(d)
    ensures var b := Deploy(db, d, Input(d), 0).db;
      && b.events == db.events && b.cursors == db.cursors && b.names == db.names[d := d]
      && d in b.deployments && b.deployments == db.deployments[d := b.deployments[d]]
      && b.deployments[d] == Deployment(d, Active, "artifact", 1, "config", 1, LONG, 0, "{}", 0, None)
      && d in b.health && b.health == db.health[d := b.health[d]] && (d !in db.health ==> !b.health[d].notified)
  {
    ValidInput(d);
    var b := Deploy(db, d, Input(d), 0).db;
    var row := Deployment(d, Active, "artifact", 1, "config", 1, LONG, 0, "{}", 0, None);
    assert DeployRow(db, d, Input(d)) == Ok(row);
    assert b == db.(deployments := db.deployments[d := row], names := db.names[d := d], health := b.health,
                    generations := b.generations, bindings := b.bindings);
  }

  lemma Newcomer(t: System, d: DeploymentId)
    requires SystemOk(t) && d !in t.ids
    ensures d !in t.db.deployments && d !in t.db.health
  {
    assert d !in t.db.deployments.Keys;
    assert d !in t.db.health.Keys;
  }

  lemma Deploys(t: System, deps: set<DeploymentId>, alerts: set<DeploymentId>, n: nat, owners: map<nat, DeploymentId>,
                c: Cursor, d: DeploymentId)
    requires SystemOk(t) && t.ids == deps && Stands(t.db, deps, alerts, n, owners, c) && d !in deps && !Blank(d)
    ensures Stands(Deploy(t.db, d, Input(d), 0).db, deps + {d}, alerts + {d}, n, owners, c)
    ensures d in Deploy(t.db, d, Input(d), 0).db.deployments
    ensures forall e :: e in t.db.deployments ==>
      e in Deploy(t.db, d, Input(d), 0).db.deployments && Deploy(t.db, d, Input(d), 0).db.deployments[e] == t.db.deployments[e]
  {
    DeployShape(t.db, d);
    Newcomer(t, d);
    DeployStands(t.db, Deploy(t.db, d, Input(d), 0).db, deps, alerts, n, owners, c, d);
  }

  lemma DeployStands(a: Db, b: Db, deps: set<DeploymentId>, alerts: set<DeploymentId>, n: nat,
                     owners: map<nat, DeploymentId>, c: Cursor, d: DeploymentId)
    requires (forall e :: e in alerts ==> Alert(a, e)) && d !in a.deployments && d !in a.health
    requires Nonces(a, n) && Lasting(a) && Owns(a, owners) && CursorOf(a, OutboxSweep) == c && a.names.Keys <= deps
    requires b.events == a.events && b.cursors == a.cursors && b.names == a.names[d := d]
    requires d in b.deployments && b.deployments[d].status == Active && b.deployments[d].threshold == 1 && b.deployments[d].retention == LONG
    requires b.deployments == a.deployments[d := b.deployments[d]]
    requires d in b.health && b.health == a.health[d := b.health[d]] && !b.health[d].notified
    ensures b.names.Keys <= deps + {d} && (forall e :: e in alerts + {d} ==> Alert(b, e))
    ensures Nonces(b, n) && Lasting(b) && Owns(b, owners) && CursorOf(b, OutboxSweep) == c
  {
  }

  /** A first failure inserts one notice, in the row after the highest. */
  lemma NoticeGoesOut(db: Db, d: DeploymentId, nonce: nat)
    requires BindingsOk(db.bindings) && DeliveriesOk(db.events, db.bindings, db.deliveries) && d in db.health
    requires Nonces(db, nonce)
    ensures Notify(db, d, 0, true, nonce + 1, 0).Ok?
  {
    assert Random(nonce + 1) !in db.events;
    forall k | k in db.deliveries ensures k.outbox != Random(nonce + 1) {
      assert DeliveryOk(db.events, db.bindings, k, db.deliveries[k]);
    }
    assert DistinctDestinations(ActiveBindings(db, d));
  }

  lemma NoticeShape(db: Db, d: DeploymentId, nonce: nat)
    requires d in db.health && Notify(db, d, 0, true, nonce, 0).Ok?
    ensures var b := Notify(db, d, 0, true, nonce, 0).value;
      && Random(nonce) in b.events && b.events == db.events[Random(nonce) := b.events[Random(nonce)]]
      && b.events[Random(nonce)].rowid == NextEventRow(db) && b.events[Random(nonce)].dep == d
      && b.events[Random(nonce)].createdAt == 0 && b.events[Random(nonce)].eventId == Notice(true, Random(nonce))
      && b == db.(events := b.events, health := b.health, deliveries := b.deliveries)
      && d in b.health && b.health == db.health[d := b.health[d]]
  {
  }

  lemma FailureShape(db: Db, d: DeploymentId, nonce: nat)
    requires BindingsOk(db.bindings) && DeliveriesOk(db.events, db.bindings, db.deliveries)
    requires Alert(db, d) && d != "" && Nonces(db, nonce)
    ensures var h := db.health[d];
      var counted := SetHealth(db, d, h.(gen := 0, status := Degraded(h.failures + 1, 1), failures := h.failures + 1));
      && Notify(counted, d, 0, true, nonce + 1, 0).Ok?
      && RecordFailure(db, d, None, nonce + 1, 0).db == Notify(counted, d, 0, true, nonce + 1, 0).value
  {
    var h := db.health[d];
    NoticeGoesOut(SetHealth(db, d, h.(gen := 0, status := Degraded(h.failures + 1, 1), failures := h.failures + 1)), d, nonce);
  }

  /** A first failure inserts one notice, in the row after the highest. */
  lemma Fails(db: Db, deps: set<DeploymentId>, alerts: set<DeploymentId>, n: nat, owners: map<nat, DeploymentId>,
              c: Cursor, d: DeploymentId)
    requires BindingsOk(db.bindings) && DeliveriesOk(db.events, db.bindings, db.deliveries)
    requires Stands(db, deps, alerts, n, owners, c) && d in alerts && d != ""
    ensures Stands(RecordFailure(db, d, None, n + 1, 0).db, deps, alerts - {d}, n + 1, owners[Highest(owners.Keys) + 1 := d], c)
    ensures RecordFailure(db, d, None, n + 1, 0).db.deployments == db.deployments
  {
    var h := db.health[d];
    var counted := SetHealth(db, d, h.(gen := 0, status := Degraded(h.failures + 1, 1), failures := h.failures + 1));
    FailureShape(db, d, n);
    NoticeShape(counted, d, n + 1);
    assert NextEventRow(counted) == NextEventRow(db);
    FailureStands(db, Notify(counted, d, 0, true, n + 1, 0).value, alerts, n, owners, c, d);
  }

  lemma FailureStands(a: Db, b: Db, alerts: set<DeploymentId>, n: nat, owners: map<nat, DeploymentId>, c: Cursor,
                      d: DeploymentId)
    requires (forall e :: e in alerts ==> Alert(a, e)) && Nonces(a, n) && Lasting(a) && Owns(a, owners) && CursorOf(a, OutboxSweep) == c
    requires Random(n + 1) in b.events && b.events == a.events[Random(n + 1) := b.events[Random(n + 1)]]
    requires b.events[Random(n + 1)].rowid == NextEventRow(a) && b.events[Random(n + 1)].dep == d && b.events[Random(n + 1)].createdAt == 0
    requires b.events[Random(n + 1)].eventId == Notice(true, Random(n + 1))
    requires b.deployments == a.deployments && b.cursors == a.cursors && d in b.health && b.health == a.health[d := b.health[d]]
    ensures (forall e :: e in alerts - {d} ==> Alert(b, e)) && Nonces(b, n + 1) && Lasting(b) && CursorOf(b, OutboxSweep) == c
    ensures Owns(b, owners[Highest(owners.Keys) + 1 := d])
  {
    FailureOwns(a, b, n, owners, d);
    LatestNotice(a, b, n);
  }

  lemma LatestNotice(a: Db, b: Db, n: nat)
    requires Nonces(a, n) && Lasting(a) && b.deployments == a.deployments
    requires Random(n + 1) in b.events && b.events == a.events[Random(n + 1) := b.events[Random(n + 1)]]
    requires b.events[Random(n + 1)].createdAt == 0 && b.events[Random(n + 1)].eventId == Notice(true, Random(n + 1))
    ensures Nonces(b, n + 1) && Lasting(b)
  {
  }

  lemma FailureOwns(a: Db, b: Db, n: nat, owners: map<nat, DeploymentId>, d: DeploymentId)
    requires Nonces(a, n) && Owns(a, owners)
    requires Random(n + 1) in b.events && b.events == a.events[Random(n + 1) := b.events[Random(n + 1)]]
    requires b.events[Random(n + 1)].rowid == NextEventRow(a) && b.events[Random(n + 1)].dep == d
    ensures Owns(b, owners[Highest(owners.Keys) + 1 := d])
  {
    var next := Highest(owners.Keys) + 1;
    assert EventRowids(a) == owners.Keys;
    assert NextEventRow(a) == next;
    assert next !in owners.Keys;
    NewRow(a.events, b.events, Random(n + 1));
  }

  lemma NewRow(es: map<OutboxId, EventRow>, fs: map<OutboxId, EventRow>, key: OutboxId)
    requires key !in es && key in fs && fs == es[key := fs[key]]
    ensures (set o | o in fs :: fs[o].rowid) == (set o | o in es :: es[o].rowid) + {fs[key].rowid}
  {
    assert forall o :: o in es ==> o in fs && fs[o] == es[o];
  }

  /** Pausing, archiving and purging a deployment frees the rows of its events. */
  lemma Purges(db: Db, deps: set<DeploymentId>, alerts: set<DeploymentId>, n: nat, owners: map<nat, DeploymentId>,
               c: Cursor, d: DeploymentId, left: map<nat, DeploymentId>)
    requires Stands(db, deps, alerts, n, owners, c) && d in db.deployments && db.deployments[d].status == Active && d !in alerts
    requires left == map r | r in owners && owners[r] != d :: owners[r]
    ensures Stands(Purge(Archive(Pause(db, d, 0).db, d, 0).db, d, true).db, deps, alerts, n, left, c)
  {
    var p := Pause(db, d, 0).db;
    var q := Archive(p, d, 0).db;
    PauseShape(db, d);
    ArchiveShape(p, d);
    assert Purge(q, d, true).db == DeleteDeployment(q, d);
    PurgeStands(db, q, DeleteDeployment(q, d), deps, alerts, n, owners, c, d, left);
  }

  lemma PauseShape(db: Db, d: DeploymentId)
    requires d in db.deployments && db.deployments[d].status == Active
    ensures var b := Pause(db, d, 0).db;
      && b.events == db.events && b.cursors == db.cursors && b.names == db.names && d in b.deployments && d in b.health
      && b.deployments[d].status == Inactive && b.deployments[d].retention == db.deployments[d].retention
      && b.deployments == db.deployments[d := b.deployments[d]] && b.health == db.health[d := b.health[d]]
  {
  }

  lemma ArchiveShape(db: Db, d: DeploymentId)
    requires d in db.deployments && db.deployments[d].status == Inactive
    ensures var b := Archive(db, d, 0).db;
      && b.events == db.events && b.cursors == db.cursors && b.names == db.names && d in b.deployments
      && b.deployments[d].status == Archived && b.deployments[d].retention == db.deployments[d].retention
      && b.deployments == db.deployments[d := b.deployments[d]] && b.health == db.health
  {
  }

  lemma PurgeStands(a: Db, b: Db, e: Db, deps: set<DeploymentId>, alerts: set<DeploymentId>, n: nat,
                    owners: map<nat, DeploymentId>, c: Cursor,
                    d: DeploymentId, left: map<nat, DeploymentId>)
    requires (forall f :: f in alerts ==> Alert(a, f)) && d !in alerts && a.names.Keys <= deps
    requires Nonces(a, n) && Lasting(a) && Owns(a, owners) && CursorOf(a, OutboxSweep) == c
    requires b.events == a.events && b.cursors == a.cursors && b.names == a.names
    requires d in b.deployments && d in b.health && d in a.deployments && b.deployments[d].retention == a.deployments[d].retention
    requires b.deployments == a.deployments[d := b.deployments[d]] && b.health == a.health[d := b.health[d]]
    requires e == DeleteDeployment(b, d) && left == map r | r in owners && owners[r] != d :: owners[r]
    ensures (forall f :: f in alerts ==> Alert(e, f)) && e.names.Keys <= deps
    ensures Nonces(e, n) && Lasting(e) && CursorOf(e, OutboxSweep) == c && Owns(e, left)
  {
    PurgeOwns(a, e, owners, d, left);
  }

  lemma PurgeOwns(a: Db, e: Db, owners: map<nat, DeploymentId>, d: DeploymentId, left: map<nat, DeploymentId>)
    requires left == map r | r in owners && owners[r] != d :: owners[r]
    requires Owns(a, owners) && e.events == map o | o in a.events && a.events[o].dep != d :: a.events[o]
    ensures Owns(e, left)
  {
    forall r | r in left ensures r in EventRowids(e) {
      assert r in EventRowids(a);
      var o :| o in a.events && a.events[o].rowid == r;
      assert o in e.events && e.events[o].rowid == r;
    }
    assert EventRowids(e) == left.Keys;
  }

  // ---- The moves of the run ------------------------------------------------------------------------------

  /** The moves lead from an idle store to these sweepers, this history and this time; every slice was written within
      an hour of reading its page. */
  ghost predicate Leads(ms: seq<Move>, s: Sweepers, h: Record, clock: int) {
    && Sweeping(OutboxSweep, IDLE, ms) && Swept(OutboxSweep, IDLE, ms) == s
    && h.seen.Keys == s.plans.Keys && Recorded(IDLE, BLANK, ms) == h
    && Ticks(ms, 0) && Latest(ms, 0) == clock && Prompts(IDLE, ms, 2 * HOUR)
  }

  lemma {:induction false} OneMore(s: Sweepers, h: Record, ms: seq<Move>, m: Move)
    requires Sweeping(OutboxSweep, s, ms) && h.seen.Keys == s.plans.Keys && Able(OutboxSweep, Swept(OutboxSweep, s, ms), m)
    ensures Sweeping(OutboxSweep, s, ms + [m])
    ensures Swept(OutboxSweep, s, ms + [m]) == Moved(OutboxSweep, Swept(OutboxSweep, s, ms), m)
    ensures Recorded(s, h, ms).seen.Keys == Swept(OutboxSweep, s, ms).plans.Keys
    ensures Recorded(s, h, ms + [m]) == Noted(Recorded(s, h, ms), Swept(OutboxSweep, s, ms), m)
    decreases |ms|
  {
    if ms == [] {
      assert [m][1..] == [];
      NotedPlans(h, s, m);
      assert Sweeping(OutboxSweep, Moved(OutboxSweep, s, m), []);
    } else {
      assert (ms + [m])[1..] == ms[1..] + [m];
      NotedPlans(h, s, ms[0]);
      OneMore(Moved(OutboxSweep, s, ms[0]), Noted(h, s, ms[0]), ms[1..], m);
    }
  }

  lemma {:induction false} OneMoreTick(ms: seq<Move>, m: Move, from: int)
    requires Ticks(ms, from) && Latest(ms, from) <= Clock(m, Latest(ms, from))
    ensures Ticks(ms + [m], from) && Latest(ms + [m], from) == Clock(m, Latest(ms, from))
    decreases |ms|
  {
    if ms == [] {
      assert [m][1..] == [];
    } else {
      assert (ms + [m])[1..] == ms[1..] + [m];
      OneMoreTick(ms[1..], m, Clock(ms[0], from));
    }
  }

  lemma {:induction false} OneMorePrompt(s: Sweepers, ms: seq<Move>, m: Move, limit: int)
    requires Sweeping(OutboxSweep, s, ms) && Prompts(s, ms, limit) && Sweeping(OutboxSweep, s, ms + [m])
    requires Prompt(Swept(OutboxSweep, s, ms), m, limit)
    ensures Prompts(s, ms + [m], limit)
    decreases |ms|
  {
    if ms == [] {
      assert ([] + [m])[0] == m && ([] + [m])[1..] == [];
    } else {
      assert (ms + [m])[1..] == ms[1..] + [m];
      OneMorePrompt(Moved(OutboxSweep, s, ms[0]), ms[1..], m, limit);
    }
  }

  lemma Leading(ms: seq<Move>, s: Sweepers, h: Record, clock: int, m: Move)
    requires Leads(ms, s, h, clock) && Able(OutboxSweep, s, m) && clock <= Clock(m, clock) && Prompt(s, m, 2 * HOUR)
    ensures Leads(ms + [m], Moved(OutboxSweep, s, m), Noted(h, s, m), Clock(m, clock))
  {
    OneMore(IDLE, BLANK, ms, m);
    OneMoreTick(ms, m, 0);
    OneMorePrompt(IDLE, ms, m, 2 * HOUR);
    NotedPlans(h, s, m);
  }

  // ---- The first sweep -----------------------------------------------------------------------------------

  /** The page discovery reads when these are the rows from the cursor on. */
  lemma PageRows(db: Db, owners: map<nat, DeploymentId>, now: int, range: set<nat>, ids: seq<nat>)
    requires Owns(db, owners) && !Resting(CursorOf(db, OutboxSweep), now) && Increasing(ids)
    requires var next := Begin(CursorOf(db, OutboxSweep), Highest(owners.Keys));
      range == InRange(owners.Keys, next.after, next.through) && |range| <= 2 && forall r :: r in ids <==> r in range
    ensures var p := DiscoverEvents(db, now);
      && p.before == CursorOf(db, OutboxSweep) && p.next == Begin(p.before, Highest(owners.Keys))
      && |p.ids| == |ids| && (forall i :: 0 <= i < |ids| ==> p.ids[i].id == ids[i]) && (p.complete <==> ids == [])
  {
    var next := Begin(CursorOf(db, OutboxSweep), Highest(owners.Keys));
    assert EventRowids(db) == owners.Keys;
    var found := Ascending(InRange(owners.Keys, next.after, next.through), BATCH);
    IncreasingSize(found, range);
    assert forall r :: r in found <==> r in ids;
    SameIncreasing(found, ids);
  }

  lemma {:induction false} IncreasingSize(a: seq<nat>, s: set<nat>)
    requires Increasing(a) && forall r :: r in a ==> r in s
    ensures |a| <= |s|
  {
    if a != [] {
      var n := |a| - 1;
      forall r | r in a[..n] ensures r in s - {a[n]} {
        var i :| 0 <= i < n && a[i] == r;
      }
      assert a[n] in s;
      IncreasingSize(a[..n], s - {a[n]});
    }
  }

  lemma {:induction false} SameIncreasing(a: seq<nat>, b: seq<nat>)
    requires Increasing(a) && Increasing(b) && forall r :: r in a <==> r in b
    ensures a == b
  {
    assert (b != [] ==> b[0] in a) && (a != [] ==> a[0] in b);
    if a != [] {
      SameTail(a, b);
      SameIncreasing(a[1..], b[1..]);
      assert a == [a[0]] + a[1..] && b == [b[0]] + b[1..];
    }
  }

  lemma SameTail(a: seq<nat>, b: seq<nat>)
    requires Increasing(a) && Increasing(b) && a != [] && b != [] && forall r :: r in a <==> r in b
    ensures a[0] == b[0] && forall r :: r in a[1..] <==> r in b[1..]
  {
    assert a[0] in b && b[0] in a;
    forall r ensures r in a[1..] <==> r in b[1..] {
      TailMember(a, r);
      TailMember(b, r);
    }
  }

  lemma TailMember(a: seq<nat>, r: nat)
    requires Increasing(a) && a != []
    ensures r in a[1..] <==> r in a && r != a[0]
  {
    assert a == [a[0]] + a[1..];
    if r in a[1..] {
      var i :| 0 <= i < |a[1..]| && a[1..][i] == r;
      assert a[0] < a[i + 1];
    }
  }

  /** A slice deletes nothing while all events last. */
  lemma SliceKeepsRows(db: Db, p: Page, taken: nat, now: int)
    requires taken <= |p.ids| && Lasting(db) && now <= 2 * HOUR
    requires !Resting(p.before, now) && CursorOf(db, OutboxSweep) == p.before
    ensures var b := Prune(db, OutboxSweep, p, taken, now).db;
      && b.deployments == db.deployments && b.names == db.names && b.health == db.health
      && b.events == db.events && CursorOf(b, OutboxSweep) == Progress(OutboxSweep, p, taken, now)
  {
    OutboxSliceDeletes(db, p, taken, now);
    forall o | o in db.events ensures !Prunable(db, o, now) {
    }
  }

  // ---- The run -------------------------------------------------------------------------------------------

  /** A run that has come this far, and what the tables hold. */
  datatype Walk = Walk(ms: seq<Move>, s: Sweepers, h: Record, clock: int)

  ghost predicate At(t: System, deps: set<DeploymentId>, alerts: set<DeploymentId>, n: nat,
                     owners: map<nat, DeploymentId>, c: Cursor) {
    t.ids == deps && Stands(t.db, deps, alerts, n, owners, c)
  }

  ghost function Further(w: Walk, m: Move): Walk
    requires Able(OutboxSweep, w.s, m) && w.h.seen.Keys == w.s.plans.Keys
  {
    Walk(w.ms + [m], Moved(OutboxSweep, w.s, m), Noted(w.h, w.s, m), Clock(m, w.clock))
  }

  ghost predicate Led(w: Walk) {
    Leads(w.ms, w.s, w.h, w.clock) && SystemOk(w.s.sys)
  }

  lemma WriteWalks(w: Walk, write: Write) returns (v: Walk)
    requires Led(w) && Allowed(w.s.sys, write) && !write.PruneSlice?
    ensures Led(v) && v.s == w.s.(sys := Next(w.s.sys, write)) && v.clock == w.clock
  {
    Leading(w.ms, w.s, w.h, w.clock, Other(write));
    NextKeeps(w.s.sys, write);
    v := Further(w, Other(write));
  }

  lemma DeployNext(t: System, d: DeploymentId)
    ensures var u := Next(t, DeployOne(d, Input(d), 0)); u.db == Deploy(t.db, d, Input(d), 0).db && u.ids == t.ids + {d}
  {
  }

  lemma FailureNext(t: System, d: DeploymentId, nonce: nat)
    ensures var u := Next(t, FailureRecorded(d, None, nonce, 0)); u.db == RecordFailure(t.db, d, None, nonce, 0).db && u.ids == t.ids
  {
  }

  lemma PurgeNext(t: System, p: System, q: System, d: DeploymentId)
    requires p == Next(t, PauseOne(d, 0)) && q == Next(p, ArchiveOne(d, 0))
    ensures var u := Next(q, PurgeOne(d, true)); u.db == Purge(Archive(Pause(t.db, d, 0).db, d, 0).db, d, true).db && u.ids == t.ids
  {
  }

  lemma DeployWalks(w: Walk, deps: set<DeploymentId>, alerts: set<DeploymentId>, n: nat, owners: map<nat, DeploymentId>,
                    c: Cursor, d: DeploymentId,
                    depsNow: set<DeploymentId>, alertsNow: set<DeploymentId>)
    returns (v: Walk)
    requires Led(w) && At(w.s.sys, deps, alerts, n, owners, c) && d !in deps && !Blank(d)
    requires depsNow == deps + {d} && alertsNow == alerts + {d}
    ensures Led(v) && At(v.s.sys, depsNow, alertsNow, n, owners, c) && v.s.plans == w.s.plans && v.clock == w.clock
  {
    var write := DeployOne(d, Input(d), 0);
    Deploys(w.s.sys, deps, alerts, n, owners, c, d);
    DeployNext(w.s.sys, d);
    v := WriteWalks(w, write);
  }

  lemma FailureWalks(w: Walk, deps: set<DeploymentId>, alerts: set<DeploymentId>, n: nat, owners: map<nat, DeploymentId>,
                     c: Cursor, d: DeploymentId,
                     alertsNow: set<DeploymentId>, nNow: nat, ownersNow: map<nat, DeploymentId>)
    returns (v: Walk)
    requires Led(w) && At(w.s.sys, deps, alerts, n, owners, c) && d in alerts && d != ""
    requires alertsNow == alerts - {d} && nNow == n + 1 && ownersNow == owners[Highest(owners.Keys) + 1 := d]
    ensures Led(v) && At(v.s.sys, deps, alertsNow, nNow, ownersNow, c) && v.s.plans == w.s.plans && v.clock == w.clock
    ensures d in v.s.sys.db.deployments && v.s.sys.db.deployments[d].status == Active
  {
    var write := FailureRecorded(d, None, n + 1, 0);
    Fails(w.s.sys.db, deps, alerts, n, owners, c, d);
    FailureNext(w.s.sys, d, n + 1);
    v := WriteWalks(w, write);
  }

  lemma PurgeWalks(w: Walk, deps: set<DeploymentId>, alerts: set<DeploymentId>, n: nat, owners: map<nat, DeploymentId>,
                   c: Cursor, d: DeploymentId,
                   left: map<nat, DeploymentId>)
    returns (v: Walk)
    requires Led(w) && At(w.s.sys, deps, alerts, n, owners, c) && d !in alerts && left == map r | r in owners && owners[r] != d :: owners[r]
    requires d in w.s.sys.db.deployments && w.s.sys.db.deployments[d].status == Active
    ensures Led(v) && At(v.s.sys, deps, alerts, n, left, c)
    ensures v.s.plans == w.s.plans && v.clock == w.clock
  {
    var t := WriteWalks(w, PauseOne(d, 0));
    var u := WriteWalks(t, ArchiveOne(d, 0));
    v := WriteWalks(u, PurgeOne(d, true));
    PurgeNext(w.s.sys, t.s.sys, u.s.sys, d);
    Purges(w.s.sys.db, deps, alerts, n, owners, c, d, left);
  }

  /** A page with these rows from the cursor on. */
  ghost predicate Shows(p: Page, c: Cursor, highest: nat, ids: seq<nat>) {
    && p.before == c && p.next == Begin(c, highest)
    && |p.ids| == |ids| && (forall i :: 0 <= i < |ids| ==> p.ids[i].id == ids[i]) && (p.complete <==> ids == [])
  }

  lemma DiscoverWalks(w: Walk, deps: set<DeploymentId>, alerts: set<DeploymentId>, n: nat,
                      owners: map<nat, DeploymentId>, c: Cursor,
                      who: nat, now: int, range: set<nat>, ids: seq<nat>)
    returns (v: Walk, p: Page)
    requires Led(w) && Stands(w.s.sys.db, deps, alerts, n, owners, c) && !Resting(c, now) && w.clock <= now && Increasing(ids)
    requires var next := Begin(c, Highest(owners.Keys));
      range == InRange(owners.Keys, next.after, next.through) && |range| <= 2 && forall r :: r in ids <==> r in range
    ensures Led(v) && v.clock == now && v.s == w.s.(plans := w.s.plans[who := Plan(p, now)]) && Shows(p, c, Highest(owners.Keys), ids)
    ensures who in v.h.seen && v.h.seen[who].since == owners.Keys
  {
    p := DiscoverEvents(w.s.sys.db, now);
    PageRows(w.s.sys.db, owners, now, range, ids);
    v := DiscoverLeads(w, who, now);
  }

  lemma DiscoverLeads(w: Walk, who: nat, now: int) returns (v: Walk)
    requires Led(w) && w.clock <= now
    ensures Led(v) && v.clock == now && v.s == w.s.(plans := w.s.plans[who := Plan(DiscoverEvents(w.s.sys.db, now), now)])
    ensures who in v.h.seen && v.h.seen[who].since == EventRowids(w.s.sys.db)
  {
    var m := Discover(who, DiscoverEvents(w.s.sys.db, now), now);
    Leading(w.ms, w.s, w.h, w.clock, m);
    v := Further(w, m);
  }

  lemma SliceWalks(w: Walk, deps: set<DeploymentId>, alerts: set<DeploymentId>, n: nat, owners: map<nat, DeploymentId>,
                   c: Cursor,
                   who: nat, taken: nat, at: int)
    returns (v: Walk)
    requires Led(w) && At(w.s.sys, deps, alerts, n, owners, c) && who in w.s.plans && Takes(w.s.plans[who].page, taken) && w.clock <= at
    requires !Resting(c, w.s.plans[who].now) && w.s.plans[who].page.before == c && w.s.plans[who].now <= 2 * HOUR
    requires at - w.s.plans[who].now < HOUR
    ensures Led(v) && At(v.s.sys, deps, alerts, n, owners, Progress(OutboxSweep, w.s.plans[who].page, taken, w.s.plans[who].now))
    ensures v.s.plans == w.s.plans && v.clock == at && Advances(OutboxSweep, w.s, who) && v.s.sys.db.deployments == w.s.sys.db.deployments
    ensures who in w.h.seen && v == Further(w, Slice(who, taken, at))
    ensures v.h == Outlive(Extended(Opened(w.h, w.s.plans[who].page, who), w.s.sys.db, w.s.plans[who].page, taken), owners.Keys)
  {
    var plan := w.s.plans[who];
    SliceKeepsRows(w.s.sys.db, plan.page, taken, plan.now);
    v := SliceLeads(w, who, taken, at);
    SliceStands(w.s.sys.db, v.s.sys.db, deps, alerts, n, owners, c, Progress(OutboxSweep, plan.page, taken, plan.now));
  }

  lemma SliceNext(t: System, p: Page, taken: nat, now: int)
    requires taken <= |p.ids|
    ensures var u := Next(t, PruneSlice(OutboxSweep, p, taken, now)); u.db == Prune(t.db, OutboxSweep, p, taken, now).db && u.ids == t.ids
  {
  }

  lemma SliceLeads(w: Walk, who: nat, taken: nat, at: int) returns (v: Walk)
    requires Led(w) && who in w.s.plans && Takes(w.s.plans[who].page, taken) && w.clock <= at
    requires at - w.s.plans[who].now < HOUR && Advances(OutboxSweep, w.s, who)
    ensures var plan := w.s.plans[who];
      && Led(v) && v.s.plans == w.s.plans && v.clock == at && v.s.sys.ids == w.s.sys.ids
      && v.s.sys.db == Prune(w.s.sys.db, OutboxSweep, plan.page, taken, plan.now).db
    ensures who in w.h.seen && v == Further(w, Slice(who, taken, at))
    ensures v.h == Outlive(Extended(Opened(w.h, w.s.plans[who].page, who), w.s.sys.db, w.s.plans[who].page, taken), EventRowids(v.s.sys.db))
  {
    var m := Slice(who, taken, at);
    Leading(w.ms, w.s, w.h, w.clock, m);
    MoveKeepsSystem(OutboxSweep, w.s, m);
    SliceNext(w.s.sys, w.s.plans[who].page, taken, w.s.plans[who].now);
    v := Further(w, m);
  }

  lemma SliceStands(a: Db, b: Db, deps: set<DeploymentId>, alerts: set<DeploymentId>, n: nat,
                    owners: map<nat, DeploymentId>, c: Cursor, d: Cursor)
    requires Stands(a, deps, alerts, n, owners, c) && CursorOf(b, OutboxSweep) == d
    requires b.deployments == a.deployments && b.names == a.names && b.health == a.health && b.events == a.events
    ensures Stands(b, deps, alerts, n, owners, d)
  {
  }

  // ---- The sweep that misses a row ---------------------------------------------------------------------------

  /** Three names for deployments. */
  ghost predicate Names(a: DeploymentId, b: DeploymentId, c: DeploymentId) {
    a != b && b != c && a != c && !Blank(a) && !Blank(b) && !Blank(c) && a != "" && b != "" && c != ""
  }

  lemma HighestIs(s: set<nat>, m: nat)
    requires m in s && forall r :: r in s ==> r <= m
    ensures Highest(s) == m
  {
  }

  lemma Idle() returns (w: Walk, owners: map<nat, DeploymentId>)
    ensures Led(w) && At(w.s.sys, {}, {}, 0, owners, ZERO_CURSOR) && w.clock == 0 && w.s.plans == map[] && owners.Keys == {}
  {
    IdleOk();
    w, owners := Walk([], IDLE, BLANK, 0), map[];
    assert Swept(OutboxSweep, IDLE, []) == IDLE && Recorded(IDLE, BLANK, []) == BLANK;
  }

  /** Two names, and what is left of them without the first and without the second. */
  lemma Both(a: DeploymentId, b: DeploymentId, c: DeploymentId)
    returns (one: set<DeploymentId>, both: set<DeploymentId>, rest: set<DeploymentId>)
    requires Names(a, b, c)
    ensures one == {} + {a} && both == one + {b} && b !in one && c !in both
    ensures rest == both - {a} && {} == rest - {b} && a in both && b in rest
  {
    one, both, rest := {a}, {a, b}, {b};
  }

  lemma TwoDeployed(a: DeploymentId, b: DeploymentId, one: set<DeploymentId>, both: set<DeploymentId>)
    returns (w: Walk, owners: map<nat, DeploymentId>)
    requires !Blank(a) && !Blank(b) && one == {} + {a} && both == one + {b} && b !in one
    ensures Led(w) && At(w.s.sys, both, both, 0, owners, ZERO_CURSOR) && w.clock == 0 && w.s.plans == map[]
    ensures owners.Keys == {}
  {
    var v;
    v, owners := Idle();
    var u := DeployWalks(v, {}, {}, 0, owners, ZERO_CURSOR, a, one, one);
    w := DeployWalks(u, one, one, 0, owners, ZERO_CURSOR, b, both, both);
  }

  lemma FirstOwner(none: map<nat, DeploymentId>, a: DeploymentId) returns (owners: map<nat, DeploymentId>)
    requires none.Keys == {}
    ensures owners == none[Highest(none.Keys) + 1 := a] && owners.Keys == {1} && owners[1] == a
  {
    owners := none[Highest(none.Keys) + 1 := a];
  }

  lemma SecondOwner(owners: map<nat, DeploymentId>, b: DeploymentId) returns (both: map<nat, DeploymentId>)
    requires owners.Keys == {1}
    ensures both == owners[Highest(owners.Keys) + 1 := b] && both.Keys == {1, 2} && both[1] == owners[1] && both[2] == b
  {
    HighestIs(owners.Keys, 1);
    both := owners[Highest(owners.Keys) + 1 := b];
  }

  lemma OneRow(a: DeploymentId, both: set<DeploymentId>, rest: set<DeploymentId>, u: Walk, none: map<nat, DeploymentId>)
    returns (w: Walk, owners: map<nat, DeploymentId>)
    requires Led(u) && At(u.s.sys, both, both, 0, none, ZERO_CURSOR) && none.Keys == {}
    requires rest == both - {a} && a in both && a != ""
    ensures Led(w) && At(w.s.sys, both, rest, 1, owners, ZERO_CURSOR) && w.clock == u.clock && w.s.plans == u.s.plans
    ensures owners.Keys == {1} && owners[1] == a
  {
    owners := FirstOwner(none, a);
    w := FailureWalks(u, both, both, 0, none, ZERO_CURSOR, a, rest, 1, owners);
  }

  lemma OtherRow(b: DeploymentId, both: set<DeploymentId>, rest: set<DeploymentId>, u: Walk, one: map<nat, DeploymentId>)
    returns (w: Walk, owners: map<nat, DeploymentId>)
    requires Led(u) && At(u.s.sys, both, rest, 1, one, ZERO_CURSOR) && one.Keys == {1}
    requires {} == rest - {b} && b in rest && b != ""
    ensures Led(w) && At(w.s.sys, both, {}, 2, owners, ZERO_CURSOR) && w.clock == u.clock && w.s.plans == u.s.plans
    ensures b in w.s.sys.db.deployments && w.s.sys.db.deployments[b].status == Active
    ensures owners.Keys == {1, 2} && owners[1] == one[1] && owners[2] == b
  {
    owners := SecondOwner(one, b);
    w := FailureWalks(u, both, rest, 1, one, ZERO_CURSOR, b, {}, 2, owners);
  }

  /** Two deployments have failed once: rows 1 and 2. */
  lemma TwoRows(a: DeploymentId, b: DeploymentId, c: DeploymentId) returns (w: Walk, deps: set<DeploymentId>,
                owners: map<nat, DeploymentId>)
    requires Names(a, b, c)
    ensures Led(w) && At(w.s.sys, deps, {}, 2, owners, ZERO_CURSOR) && w.clock == 0 && w.s.plans == map[] && c !in deps
    ensures b in w.s.sys.db.deployments && w.s.sys.db.deployments[b].status == Active
    ensures owners.Keys == {1, 2} && owners[1] == a && owners[2] == b
  {
    var one, both, rest := Both(a, b, c);
    deps := both;
    var u, none := TwoDeployed(a, b, one, both);
    var v, first := OneRow(a, both, rest, u, none);
    w, owners := OtherRow(b, both, rest, v, first);
  }

  const HALFWAY := Cursor(1, 2, 0, 0, 0)

  lemma TwoRange(owners: map<nat, DeploymentId>)
    requires owners.Keys == {1, 2}
    ensures Highest(owners.Keys) == 2 && InRange(owners.Keys, 0, 2) == {1, 2} && InRange(owners.Keys, 1, 2) == {2}
  {
    HighestIs(owners.Keys, 2);
  }

  lemma OneRange(owners: map<nat, DeploymentId>)
    requires owners.Keys == {1}
    ensures Highest(owners.Keys) == 1 && InRange(owners.Keys, 1, 2) == {}
  {
    HighestIs(owners.Keys, 1);
  }

  lemma FirstRange(owners: map<nat, DeploymentId>, c: Cursor) returns (range: set<nat>, ids: seq<nat>)
    requires owners.Keys == {1, 2} && c.through == 0
    ensures Increasing(ids) && ids == [1, 2] && Highest(owners.Keys) == 2
    ensures var next := Begin(c, Highest(owners.Keys));
      range == InRange(owners.Keys, next.after, next.through) && |range| <= 2 && forall r :: r in ids <==> r in range
  {
    TwoRange(owners);
    range, ids := {1, 2}, [1, 2];
  }

  /** A sweep over rows 1 and 2 reads its first page and takes row 1. */
  lemma Begins(w: Walk, deps: set<DeploymentId>, n: nat, owners: map<nat, DeploymentId>, c: Cursor, now: int)
    returns (v: Walk, p: Page)
    requires Led(w) && At(w.s.sys, deps, {}, n, owners, c) && owners.Keys == {1, 2} && c.through == 0 && !Resting(c, now)
    requires w.clock <= now <= 2 * HOUR
    ensures Led(v) && At(v.s.sys, deps, {}, n, owners, HALFWAY) && v.clock == now
    ensures v.s.plans == w.s.plans[0 := Plan(p, now)]
    ensures v.s.sys.db.deployments == w.s.sys.db.deployments
    ensures v.h.visited == [1] && v.h.kept == {1, 2}
  {
    var range, ids := FirstRange(owners, c);
    var u;
    u, p := DiscoverWalks(w, deps, {}, n, owners, c, 0, now, range, ids);
    FirstSlice(u.h, u.s.sys.db, p, c, owners, now);
    v := SliceWalks(u, deps, {}, n, owners, c, 0, 1, now);
  }

  lemma FirstSlice(h: Record, db: Db, p: Page, c: Cursor, owners: map<nat, DeploymentId>, now: int)
    requires owners.Keys == {1, 2} && c.through == 0 && Shows(p, c, 2, [1, 2]) && 0 in h.seen && h.seen[0].since == owners.Keys
    ensures Takes(p, 1) && Progress(OutboxSweep, p, 1, now) == HALFWAY
    ensures var g := Outlive(Extended(Opened(h, p, 0), db, p, 1), owners.Keys); g.visited == [1] && g.kept == {1, 2}
  {
    assert Taken(p, 1) == [1];
  }

  const RESTED := ZERO_CURSOR.(nextSweep := HOUR)

  lemma FindsNothing(w: Walk, deps: set<DeploymentId>, n: nat, owners: map<nat, DeploymentId>, who: nat,
                     now: int) returns (v: Walk, p: Page)
    requires Led(w) && At(w.s.sys, deps, {}, n, owners, HALFWAY) && owners.Keys == {1} && w.clock <= now
    ensures Led(v) && At(v.s.sys, deps, {}, n, owners, HALFWAY) && v.clock == now
    ensures v.s.plans == w.s.plans[who := Plan(p, now)] && Shows(p, HALFWAY, 1, [])
  {
    OneRange(owners);
    v, p := DiscoverWalks(w, deps, {}, n, owners, HALFWAY, who, now, {}, []);
  }

  lemma TwoPlans(plans: map<nat, Plan>, p: Plan, q: Plan) returns (more: map<nat, Plan>)
    ensures more == plans[0 := p][1 := q] && 0 in more && more[0] == p && 1 in more && more[1] == q
  {
    more := plans[0 := p][1 := q];
  }

  lemma BothFindNothing(w: Walk, deps: set<DeploymentId>, n: nat, owners: map<nat, DeploymentId>) returns (v: Walk,
                        p: Page, q: Page)
    requires Led(w) && At(w.s.sys, deps, {}, n, owners, HALFWAY) && owners.Keys == {1} && w.clock == 0
    ensures Led(v) && At(v.s.sys, deps, {}, n, owners, HALFWAY) && v.clock == 57 * MINUTE
    ensures v.s.plans == w.s.plans[0 := Plan(p, 0)][1 := Plan(q, 57 * MINUTE)] && Shows(p, HALFWAY, 1, []) && Shows(q, HALFWAY, 1, [])
  {
    var t;
    t, p := FindsNothing(w, deps, n, owners, 0, 0);
    v, q := FindsNothing(t, deps, n, owners, 1, 57 * MINUTE);
  }

  lemma NothingLeft(p: Page)
    requires Shows(p, HALFWAY, 1, [])
    ensures Takes(p, 0) && p.before == HALFWAY && Progress(OutboxSweep, p, 0, 0) == RESTED
  {
  }

  lemma EndsSweep(w: Walk, deps: set<DeploymentId>, n: nat, owners: map<nat, DeploymentId>, p: Page) returns (v: Walk)
    requires Led(w) && At(w.s.sys, deps, {}, n, owners, HALFWAY) && w.clock == 57 * MINUTE
    requires 0 in w.s.plans && w.s.plans[0] == Plan(p, 0) && Shows(p, HALFWAY, 1, [])
    ensures Led(v) && At(v.s.sys, deps, {}, n, owners, RESTED) && v.clock == 58 * MINUTE && v.s.plans == w.s.plans
  {
    NothingLeft(p);
    v := SliceWalks(w, deps, {}, n, owners, HALFWAY, 0, 0, 58 * MINUTE);
  }

  /** Row 2 is gone: two sweepers find that nothing is left, and one of them ends the sweep. */
  lemma Finishes(w: Walk, deps: set<DeploymentId>, n: nat, owners: map<nat, DeploymentId>) returns (v: Walk, p: Page)
    requires Led(w) && At(w.s.sys, deps, {}, n, owners, HALFWAY) && owners.Keys == {1} && w.clock == 0
    ensures Led(v) && At(v.s.sys, deps, {}, n, owners, RESTED) && v.clock == 58 * MINUTE
    ensures 1 in v.s.plans && v.s.plans[1] == Plan(p, 57 * MINUTE) && Shows(p, HALFWAY, 1, [])
  {
    var u, q;
    u, q, p := BothFindNothing(w, deps, n, owners);
    var more := TwoPlans(w.s.plans, Plan(q, 0), Plan(p, 57 * MINUTE));
    v := EndsSweep(u, deps, n, owners, q);
  }

  lemma OwnersLeft(owners: map<nat, DeploymentId>, a: DeploymentId, b: DeploymentId) returns (left: map<nat, DeploymentId>)
    requires owners.Keys == {1, 2} && owners[1] == a && owners[2] == b && a != b
    ensures left == (map r | r in owners && owners[r] != b :: owners[r]) && left.Keys == {1}
  {
    left := map r | r in owners && owners[r] != b :: owners[r];
  }

  lemma FirstHalf(b: DeploymentId, deps: set<DeploymentId>, both: map<nat, DeploymentId>, w: Walk) returns (v: Walk)
    requires Led(w) && At(w.s.sys, deps, {}, 2, both, ZERO_CURSOR) && w.clock == 0 && both.Keys == {1, 2}
    requires b in w.s.sys.db.deployments && w.s.sys.db.deployments[b].status == Active
    ensures Led(v) && At(v.s.sys, deps, {}, 2, both, HALFWAY) && v.clock == 0
    ensures b in v.s.sys.db.deployments && v.s.sys.db.deployments[b].status == Active
  {
    var p;
    v, p := Begins(w, deps, 2, both, ZERO_CURSOR, 0);
  }

  /** A sweep takes row 1, and row 2 is purged with its deployment. */
  lemma Halted(a: DeploymentId, b: DeploymentId, c: DeploymentId) returns (w: Walk, deps: set<DeploymentId>,
               owners: map<nat, DeploymentId>)
    requires Names(a, b, c)
    ensures Led(w) && At(w.s.sys, deps, {}, 2, owners, HALFWAY) && w.clock == 0 && owners.Keys == {1} && c !in deps
  {
    var t, both;
    t, deps, both := TwoRows(a, b, c);
    var u := FirstHalf(b, deps, both, t);
    owners := OwnersLeft(both, a, b);
    w := PurgeWalks(u, deps, {}, 2, both, HALFWAY, b, owners);
  }

  lemma FirstSweep(a: DeploymentId, b: DeploymentId, c: DeploymentId)
    returns (w: Walk, deps: set<DeploymentId>, owners: map<nat, DeploymentId>, p: Page)
    requires Names(a, b, c)
    ensures Led(w) && At(w.s.sys, deps, {}, 2, owners, RESTED) && w.clock == 58 * MINUTE && owners.Keys == {1} && c !in deps
    ensures 1 in w.s.plans && w.s.plans[1] == Plan(p, 57 * MINUTE) && Shows(p, HALFWAY, 1, [])
  {
    var v;
    v, deps, owners := Halted(a, b, c);
    w, p := Finishes(v, deps, 2, owners);
  }

  lemma Joined(deps: set<DeploymentId>, c: DeploymentId) returns (depsNow: set<DeploymentId>, alerts: set<DeploymentId>)
    ensures depsNow == deps + {c} && alerts == {} + {c} && {} == alerts - {c} && c in alerts
  {
    depsNow, alerts := deps + {c}, {c};
  }

  /** Another deployment fails, and its notice takes the free row 2. */
  lemma RowAgain(w: Walk, deps: set<DeploymentId>, c: DeploymentId, one: map<nat, DeploymentId>)
    returns (v: Walk, depsNow: set<DeploymentId>, owners: map<nat, DeploymentId>)
    requires Led(w) && At(w.s.sys, deps, {}, 2, one, RESTED) && one.Keys == {1} && c !in deps && !Blank(c) && c != ""
    ensures Led(v) && At(v.s.sys, depsNow, {}, 3, owners, RESTED) && owners.Keys == {1, 2}
    ensures v.s.plans == w.s.plans && v.clock == w.clock
  {
    var alerts;
    depsNow, alerts := Joined(deps, c);
    var u := DeployWalks(w, deps, {}, 2, one, RESTED, c, depsNow, alerts);
    owners := SecondOwner(one, c);
    v := FailureWalks(u, depsNow, alerts, 2, one, RESTED, c, {}, 3, owners);
  }

  /** Row 2 is back, and a sweeper sleeps on the page that ended the first sweep. */
  lemma BetweenSweeps(a: DeploymentId, b: DeploymentId, c: DeploymentId)
    returns (w: Walk, deps: set<DeploymentId>, owners: map<nat, DeploymentId>, p: Page)
    requires Names(a, b, c)
    ensures Led(w) && At(w.s.sys, deps, {}, 3, owners, RESTED) && w.clock == 58 * MINUTE && owners.Keys == {1, 2}
    ensures 1 in w.s.plans && w.s.plans[1] == Plan(p, 57 * MINUTE) && Shows(p, HALFWAY, 1, [])
  {
    var t, some, one;
    t, some, one, p := FirstSweep(a, b, c);
    w, deps, owners := RowAgain(t, some, c, one);
  }

  /** The next sweep takes row 1, and stops where the first one had stopped. */
  lemma SecondSweep(a: DeploymentId, b: DeploymentId, c: DeploymentId)
    returns (w: Walk, deps: set<DeploymentId>, owners: map<nat, DeploymentId>, p: Page)
    requires Names(a, b, c)
    ensures Led(w) && At(w.s.sys, deps, {}, 3, owners, HALFWAY) && w.clock == 60 * MINUTE && owners.Keys == {1, 2}
    ensures 1 in w.s.plans && w.s.plans[1] == Plan(p, 57 * MINUTE) && Shows(p, HALFWAY, 1, [])
    ensures w.h.visited == [1] && w.h.kept == {1, 2}
  {
    var u, q;
    u, deps, owners, p := BetweenSweeps(a, b, c);
    w, q := Begins(u, deps, 3, owners, RESTED, 60 * MINUTE);
  }

  lemma LastSlice(h: Record, db: Db, p: Page, owners: map<nat, DeploymentId>)
    requires Shows(p, HALFWAY, 1, []) && 1 in h.seen && owners.Keys == {1, 2} && h.visited == [1] && h.kept == {1, 2}
    ensures Takes(p, 0) && p.complete && p.before.through == 2
    ensures var g := Outlive(Extended(Opened(h, p, 1), db, p, 0), owners.Keys); 2 in g.kept && 2 !in g.visited
  {
    assert Taken(p, 0) == [];
  }

  /** The sleeping sweeper wakes up and ends the second sweep with what it read in the first. */
  lemma SkippedRow(a: DeploymentId, b: DeploymentId, c: DeploymentId) returns (w: Walk, m: Move)
    requires Names(a, b, c)
    ensures Led(w) && Closes(w.s, m) && w.clock <= m.at && Prompt(w.s, m, 2 * HOUR)
    ensures 2 in Noted(w.h, w.s, m).kept && 2 !in Noted(w.h, w.s, m).visited
  {
    var deps, owners, p;
    w, deps, owners, p := SecondSweep(a, b, c);
    m := Slice(1, 0, 61 * MINUTE);
    LastSlice(w.h, w.s.sys.db, p, owners);
    var v := SliceWalks(w, deps, {}, 3, owners, HALFWAY, 1, 0, 61 * MINUTE);
  }

  lemma SomeNames() returns (a: DeploymentId, b: DeploymentId, c: DeploymentId)
    ensures Names(a, b, c)
  {
    a, b, c := "a", "b", "c";
    assert a[0] == 'a' && b[0] == 'b' && c[0] == 'c';
    assert 'a' in a && 'b' in b && 'c' in c;
  }

  /** Writing each slice within an hour of reading its page is not enough: from an empty store there is a run in which
      a sweep closes and has not visited a row that was there from its start to its end. */
  lemma StaleSweeperSkipsRow() returns (ms: seq<Move>, m: Move)
    ensures Sweeping(OutboxSweep, IDLE, ms) && Closes(Swept(OutboxSweep, IDLE, ms), m)
    ensures RecordOk(Swept(OutboxSweep, IDLE, ms), Recorded(IDLE, BLANK, ms))
    ensures Ticks(ms, 0) && Latest(ms, 0) <= m.at
    ensures Prompts(IDLE, ms, 2 * HOUR) && Prompt(Swept(OutboxSweep, IDLE, ms), m, 2 * HOUR)
    ensures var h := Noted(Recorded(IDLE, BLANK, ms), Swept(OutboxSweep, IDLE, ms), m); 2 in h.kept && 2 !in h.visited
  {
    var a, b, c := SomeNames();
    var w;
    w, m := SkippedRow(a, b, c);
    ms := w.ms;
    VisitedUnlessUnlisted(ms, m);
  }
}
