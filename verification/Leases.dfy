/** The outbox lease machine over whole runs of claimers, completions and everything else that writes. */
module Leases {
  import opened Schema
  import opened Transactions
  import opened Lifecycle
  import opened HealthRecords
  import opened Outbox
  import opened Retention
  import opened Integrity
  import opened OutboxIntegrity
  import opened Writes
  import opened History
  import opened Fanout
  import opened HealthHistory

  // ---- Who changes delivery rows --------------------------------------------------------------------

  /** Rows are deleted, or added to wait for their first attempt; the rest stay as they are. */
  ghost predicate Untouched(a: Deliveries, b: Deliveries) {
    forall k :: k in b ==>
      if k in a then b[k] == a[k] else b[k].status == Pending && b[k].owner.None? && b[k].attempts == 0
  }

  lemma NoticeUntouched(db: Db, dep: DeploymentId, gen: nat, unhealthy: bool, nonce: nat, now: int)
    requires dep in db.health && Notify(db, dep, gen, unhealthy, nonce, now).Ok?
    ensures Untouched(db.deliveries, Notify(db, dep, gen, unhealthy, nonce, now).value.deliveries)
  {
    var b := Notify(db, dep, gen, unhealthy, nonce, now).value;
    forall k | k in db.deliveries ensures k in b.deliveries && b.deliveries[k] == db.deliveries[k] {
      assert k.outbox != Random(nonce);
    }
  }

  lemma NotifyOrUntouched(db: Db, dep: DeploymentId, h: Health, gen: nat, unhealthy: bool, nonce: nat, now: int)
    requires dep in db.health
    ensures Untouched(db.deliveries, NotifyOr(db, dep, h, gen, unhealthy, nonce, now).deliveries)
  {
    if Notify(SetHealth(db, dep, h), dep, gen, unhealthy, nonce, now).Ok? {
      NoticeUntouched(SetHealth(db, dep, h), dep, gen, unhealthy, nonce, now);
    }
  }

  lemma CountUntouched(db: Db, dep: DeploymentId, gen: nat, nonce: nat, now: int)
    requires Watched(db, dep)
    ensures Untouched(db.deliveries, CountFailure(db, dep, gen, nonce, now).db.deliveries)
    ensures Untouched(db.deliveries, ClearFailures(db, dep, gen, nonce, now).db.deliveries)
  {
    CountFailureCases(db, dep, gen, nonce, now);
    NotifyOrUntouched(db, dep, Counted(db, dep, gen), gen, true, nonce, now);
    NotifyOrUntouched(db, dep, db.health[dep].(gen := gen, status := Healthy, failures := 0), gen, false, nonce, now);
  }

  lemma DeferUntouched(db: Db, dep: DeploymentId, gen: nat, nonce: nat, now: int)
    ensures RecordRun(db, dep, gen, Deferred, nonce, now).db.deliveries == db.deliveries
  {
  }

  lemma RefusedRun(db: Db, dep: DeploymentId, gen: nat, status: RunStatus, nonce: nat, now: int)
    requires RecordRun(db, dep, gen, status, nonce, now).reply.Err?
    ensures RecordRun(db, dep, gen, status, nonce, now).db == db
  {
  }

  lemma RunUntouched(db: Db, dep: DeploymentId, gen: nat, status: RunStatus, nonce: nat, now: int)
    ensures Untouched(db.deliveries, RecordRun(db, dep, gen, status, nonce, now).db.deliveries)
  {
    if RecordRun(db, dep, gen, status, nonce, now).reply.Err? {
      RefusedRun(db, dep, gen, status, nonce, now);
    } else if status == Deferred {
      DeferUntouched(db, dep, gen, nonce, now);
    } else {
      RunIs(db, dep, gen, status, nonce, now);
      CountUntouched(db, dep, gen, nonce, now);
    }
  }

  lemma StableUntouched(db: Db, dep: DeploymentId, gen: nat, nonce: nat, now: int)
    ensures Untouched(db.deliveries, MarkStable(db, dep, gen, nonce, now).db.deliveries)
  {
    if Watched(db, dep) {
      CountUntouched(db, dep, gen, nonce, now);
    }
  }

  lemma FailureUntouched(db: Db, dep: DeploymentId, gen: Option<nat>, nonce: nat, now: int)
    ensures Untouched(db.deliveries, RecordFailure(db, dep, gen, nonce, now).db.deliveries)
  {
    if Watched(db, dep) {
      CountUntouched(db, dep, if gen.Some? then db.deployments[dep].activeGeneration else 0, nonce, now);
    }
  }

  lemma WatchingUntouched(db: Db, w: Write)
    requires Watching(w)
    ensures Untouched(db.deliveries, Perform(db, w).deliveries)
  {
    match w
    case RunRecorded(dep, gen, status, nonce, now) => RunUntouched(db, dep, gen, status, nonce, now);
    case StableMarked(dep, gen, nonce, now) => StableUntouched(db, dep, gen, nonce, now);
    case FailureRecorded(dep, gen, nonce, now) => FailureUntouched(db, dep, gen, nonce, now);
  }

  lemma {:induction false} SliceUntouched(db: Db, name: SweepName, p: Page, taken: nat, now: int)
    requires taken <= |p.ids|
    ensures Untouched(db.deliveries, DeleteAll(db, name, p, taken, now).deliveries)
  {
    if taken > 0 {
      SliceUntouched(db, name, p, taken - 1, now);
    }
  }

  lemma RecordedRow(es: Events, ds: Deliveries, f: Frame, e: OutboxEvent, now: int, k: DeliveryKey)
    requires Recorded(es, ds, f, e, now) && k in ds && k.outbox == e.outboxId
    ensures ds[k].status == Pending && ds[k].owner.None? && ds[k].attempts == 0
  {
    var d :| d in e.deliveries && d.dest == k.dest;
    assert k == DeliveryKey(k.outbox, d.dest);
  }

  lemma AdvanceRows(db: Db, f: Frame)
    requires DistinctSources(f.checkpoints) && f.dep in db.deployments && GenKey(f.dep, f.gen) in db.generations
    ensures Advance(db, f).events == db.events && Advance(db, f).deliveries == db.deliveries
  {
  }

  lemma FrameUntouched(db: Db, f: Frame, now: int)
    requires Rooted(db.events, db.deliveries)
    ensures Untouched(db.deliveries, Apply(db, f, now).db.deliveries)
  {
    hide Recorded, Advance;
    if TakesEffect(db, f, now) {
      AdvanceRows(db, f);
      FrameRecords(Advance(db, f), f, f.events, now);
      var b := Apply(db, f, now).db;
      forall k | k in b.deliveries && k !in db.deliveries
        ensures b.deliveries[k].status == Pending && b.deliveries[k].owner.None? && b.deliveries[k].attempts == 0
      {
        var i :| 0 <= i < |f.events| && f.events[i].outboxId == k.outbox && Recorded(b.events, b.deliveries, f, f.events[i], now);
        RecordedRow(b.events, b.deliveries, f, f.events[i], now, k);
      }
    }
  }

  lemma PurgeUntouched(db: Db, id: DeploymentId, force: bool)
    ensures Untouched(db.deliveries, Purge(db, id, force).db.deliveries)
  {
  }

  lemma ActivateUntouched(db: Db, s: Snapshot, fingerprint: string, token: Token, now: int)
    ensures Untouched(db.deliveries, Activate(db, s, fingerprint, token, now).db.deliveries)
  {
    var b := Activate(db, s, fingerprint, token, now).db;
    assert b == db || b == db.(deployments := b.deployments, generations := b.generations, health := b.health);
  }

  lemma DeploymentUntouched(db: Db, w: Write)
    requires w.DeployOne? || w.PurgeOne? || w.OpenGeneration?
    ensures Untouched(db.deliveries, Perform(db, w).deliveries)
  {
    hide Untouched;
    match w
    case DeployOne(newId, input, now) => DeployUntouched(db, newId, input, now);
    case PurgeOne(id, force) => PurgeUntouched(db, id, force);
    case OpenGeneration(s, fingerprint, token, now) => ActivateUntouched(db, s, fingerprint, token, now);
  }

  lemma DeployUntouched(db: Db, newId: DeploymentId, input: DeployInput, now: int)
    ensures Deploy(db, newId, input, now).db.deliveries == db.deliveries
    ensures Untouched(db.deliveries, Deploy(db, newId, input, now).db.deliveries)
  {
  }

  /** Only claims, completions and retries change a delivery row. */
  lemma OthersLeaveRows(db: Db, w: Write)
    requires Inv(db) && !Delivering(w)
    ensures Untouched(db.deliveries, Perform(db, w).deliveries)
  {
    if w.ApplyFrame? {
      RootedOutbox(db);
      FrameUntouched(db, w.frame, w.now);
    } else if w.DeployOne? || w.PurgeOne? || w.OpenGeneration? {
      DeploymentUntouched(db, w);
    } else if Fencing(w) {
      FencingWrite(db, w);
    } else if Marking(w) {
      MarkingWrite(db, w);
    } else if Watching(w) {
      WatchingUntouched(db, w);
    } else if w.taken <= |w.page.ids| {
      SliceUntouched(db, w.name, w.page, w.taken, w.now);
    }
  }

  // ---- One step of one row ----------------------------------------------------------------------------

  /** How a write may move a row that survives it. */
  ghost predicate RowStep(w: Write, k: DeliveryKey, d: Delivery, e: Delivery) {
    || e == d
    || (w.ClaimRows? && k in w.chosen && e == d.(status := Sending, owner := Some(w.owner), leaseExpires := Some(w.leaseUntil)))
    || (Ends(w) && w.key == k && d.status == Sending && d.owner == Some(w.owner) && e.status != Sending && e.owner.None?)
    || (w.RetryOne? && w.key == k && d.status == Dead && e.status == Pending && e.owner == d.owner)
  }

  /** A write that tries to end a lease. */
  predicate Ends(w: Write) {
    w.EndDelivered? || w.EndDeferred? || w.EndFailed?
  }

  lemma SettleRow(db: Db, key: DeliveryKey, owner: Owner, status: DeliveryStatus, counted: nat, next: Option<int>,
                  k: DeliveryKey)
    requires k in db.deliveries && status != Sending
    ensures var b := Settle(db, key, owner, status, counted, next).db;
      && k in b.deliveries && b.deliveries.Keys == db.deliveries.Keys
      && (b.deliveries[k] == db.deliveries[k] ||
          (key == k && Holds(db, k, owner) && b.deliveries[k].status == status && b.deliveries[k].owner.None?))
  {
  }

  lemma DeliveringRow(db: Db, w: Write, k: DeliveryKey)
    requires Delivering(w) && k in db.deliveries
    ensures k in Perform(db, w).deliveries && RowStep(w, k, db.deliveries[k], Perform(db, w).deliveries[k])
    ensures Perform(db, w).deliveries.Keys == db.deliveries.Keys
  {
    match w
    case ClaimRows(owner, _, until, chosen) => LeaseRow(db, owner, until, chosen, k);
    case EndDelivered(key, owner) => SettleRow(db, key, owner, Delivered, 0, None, k);
    case EndDeferred(key, owner, next) => SettleRow(db, key, owner, Pending, 0, Some(next), k);
    case EndFailed(key, owner, attempts, next, maxAttempts) => FailedRow(db, key, owner, attempts, next, maxAttempts, k);
    case RetryOne(key, now) => RetryRow(db, key, now, k);
  }

  lemma FailedRow(db: Db, key: DeliveryKey, owner: Owner, attempts: nat, next: int, maxAttempts: nat, k: DeliveryKey)
    requires k in db.deliveries
    ensures var b := MarkFailed(db, key, owner, attempts, next, maxAttempts).db;
      && k in b.deliveries && b.deliveries.Keys == db.deliveries.Keys
      && (b.deliveries[k] == db.deliveries[k] ||
          (key == k && Holds(db, k, owner) && b.deliveries[k].status != Sending && b.deliveries[k].owner.None?))
  {
    FailedIs(db, key, owner, attempts, next, maxAttempts);
    if maxAttempts >= 1 && attempts + 1 >= maxAttempts {
      SettleRow(db, key, owner, Dead, 1, None, k);
    } else if maxAttempts >= 1 {
      SettleRow(db, key, owner, Pending, 1, Some(next), k);
    }
  }

  lemma FailedIs(db: Db, key: DeliveryKey, owner: Owner, attempts: nat, next: int, maxAttempts: nat)
    ensures maxAttempts < 1 ==> MarkFailed(db, key, owner, attempts, next, maxAttempts).db == db
    ensures maxAttempts >= 1 ==>
      MarkFailed(db, key, owner, attempts, next, maxAttempts) ==
      if attempts + 1 >= maxAttempts then Settle(db, key, owner, Dead, 1, None) else Settle(db, key, owner, Pending, 1, Some(next))
  {
  }

  lemma LeaseRow(db: Db, owner: Owner, until: int, chosen: set<DeliveryKey>, k: DeliveryKey)
    requires k in db.deliveries
    ensures var b := Lease(db, owner, until, chosen); var d := db.deliveries[k];
      && k in b.deliveries && b.deliveries.Keys == db.deliveries.Keys
      && b.deliveries[k] == (if k in chosen then d.(status := Sending, owner := Some(owner), leaseExpires := Some(until)) else d)
  {
  }

  lemma RetryRow(db: Db, key: DeliveryKey, now: int, k: DeliveryKey)
    requires k in db.deliveries
    ensures var b := RetryDead(db, key, now).db; var d := db.deliveries[k];
      && k in b.deliveries && b.deliveries.Keys == db.deliveries.Keys
      && b.deliveries[k] == (if k == key && d.status == Dead then d.(status := Pending, attempts := 0, nextAttempt := now) else d)
  {
    if key in db.deliveries && db.deliveries[key].status == Dead {
      var row := db.deliveries[key].(status := Pending, attempts := 0, nextAttempt := now);
      assert RetryDead(db, key, now).db.deliveries == db.deliveries[key := row];
    } else {
      assert RetryDead(db, key, now).db == db;
    }
  }

  lemma AnyRow(db: Db, w: Write, k: DeliveryKey)
    requires Inv(db) && k in db.deliveries && k in Perform(db, w).deliveries
    ensures RowStep(w, k, db.deliveries[k], Perform(db, w).deliveries[k])
  {
    if Delivering(w) {
      DeliveringRow(db, w, k);
    } else {
      OthersLeaveRows(db, w);
    }
  }

  // ---- Claims -------------------------------------------------------------------------------------------

  /** Every claim takes a fresh identity and chooses among the rows that are due when it is made. */
  ghost predicate ClaimOk(db: Db, w: Write, used: set<Owner>) {
    w.ClaimRows? ==> w.owner !in used && exists limit: nat :: Selects(db, w.now, limit, w.chosen)
  }

  function UsedAfter(used: set<Owner>, w: Write): set<Owner> {
    if w.ClaimRows? then used + {w.owner} else used
  }

  /** A run in which claims are made as ClaimOutbox makes them. */
  ghost predicate Claiming(s: System, ws: seq<Write>, used: set<Owner>)
    decreases |ws|
  {
    ws == [] || (Allowed(s, ws[0]) && ClaimOk(s.db, ws[0], used) && Claiming(Next(s, ws[0]), ws[1..], UsedAfter(used, ws[0])))
  }

  ghost predicate OwnersUsed(db: Db, used: set<Owner>) {
    forall k :: k in db.deliveries && db.deliveries[k].owner.Some? ==> db.deliveries[k].owner.value in used
  }

  lemma {:induction false} ClaimingAllowed(s: System, ws: seq<Write>, used: set<Owner>)
    requires Claiming(s, ws, used)
    ensures AllowedRun(s, ws)
    decreases |ws|
  {
    if ws != [] {
      ClaimingAllowed(Next(s, ws[0]), ws[1..], UsedAfter(used, ws[0]));
    }
  }

  /** The joining query hands back every row the claim leased, and no other. */
  lemma ClaimReturnsItsRows(db: Db, owner: Owner, until: int, chosen: set<DeliveryKey>, used: set<Owner>)
    requires Inv(db) && OwnersUsed(db, used) && owner !in used && chosen <= db.deliveries.Keys
    ensures Claimed(Lease(db, owner, until, chosen), owner, until) == chosen
  {
    var b := Lease(db, owner, until, chosen);
    forall k ensures k in Claimed(b, owner, until) <==> k in chosen {
      if k in db.deliveries {
        LeaseRow(db, owner, until, chosen, k);
        assert DeliveryOk(db.events, db.bindings, k, db.deliveries[k]);
        assert EventOk(db.deployments, db.ledger, db.events[k.outbox]);
      } else {
        assert k !in db.deliveries.Keys;
      }
    }
  }

  /** ... as ClaimOutbox needs it: an identity no row has ever named. */
  lemma FreshClaim(s: System, owner: Owner, until: int, chosen: set<DeliveryKey>)
    requires SystemOk(s) && chosen <= s.db.deliveries.Keys
    requires forall k :: k in s.db.deliveries ==> s.db.deliveries[k].owner != Some(owner)
    ensures Claimed(Lease(s.db, owner, until, chosen), owner, until) == chosen
  {
    hide Inv, Lease, Claimed;
    var db := s.db;
    var used := set k | k in db.deliveries && db.deliveries[k].owner.Some? :: db.deliveries[k].owner.value;
    ClaimReturnsItsRows(db, owner, until, chosen, used);
  }

  // ---- Rows over runs -------------------------------------------------------------------------------------

  /** `delivered` is final: no claim, completion or retry touches the row again. */
  lemma DeliveredStays(db: Db, w: Write, used: set<Owner>, k: DeliveryKey)
    requires Inv(db) && ClaimOk(db, w, used) && k in db.deliveries && db.deliveries[k].status == Delivered
    requires k in Perform(db, w).deliveries
    ensures Perform(db, w).deliveries[k] == db.deliveries[k]
  {
    AnyRow(db, w, k);
    if w.ClaimRows? {
      NotChosen(db, w, used, k);
    }
  }

  lemma NotChosen(db: Db, w: Write, used: set<Owner>, k: DeliveryKey)
    requires ClaimOk(db, w, used) && w.ClaimRows? && k in db.deliveries && db.deliveries[k].status == Delivered
    ensures k !in w.chosen
  {
    ChosenIsDue(db, w.now, w.chosen, k);
  }

  lemma ChosenIsDue(db: Db, now: int, chosen: set<DeliveryKey>, k: DeliveryKey)
    requires exists limit: nat :: Selects(db, now, limit, chosen)
    ensures k in chosen ==>
      && k in db.deliveries
      && var d := db.deliveries[k];
         || (d.status == Pending && d.nextAttempt <= now)
         || (d.status == Sending && d.leaseExpires.Some? && d.leaseExpires.value <= now)
  {
    var limit: nat :| Selects(db, now, limit, chosen);
    assert k in chosen ==> k in DueRows(db, now);
  }

  /** The row is there throughout the run. */
  ghost predicate Remains(s: System, ws: seq<Write>, k: DeliveryKey)
    decreases |ws|
  {
    k in s.db.deliveries && (ws == [] || Remains(Next(s, ws[0]), ws[1..], k))
  }

  lemma {:induction false} DeliveredForever(s: System, ws: seq<Write>, used: set<Owner>, k: DeliveryKey)
    requires SystemOk(s) && Claiming(s, ws, used) && Remains(s, ws, k) && s.db.deliveries[k].status == Delivered
    ensures k in Run(s, ws).db.deliveries && Run(s, ws).db.deliveries[k] == s.db.deliveries[k]
    decreases |ws|
  {
    if ws != [] {
      NextKeeps(s, ws[0]);
      assert k in Next(s, ws[0]).db.deliveries;
      DeliveredStays(s.db, ws[0], used, k);
      DeliveredForever(Next(s, ws[0]), ws[1..], UsedAfter(used, ws[0]), k);
    }
  }

  /** A lease that is over is never held again: identities are not reused. */
  lemma LostStaysLost(db: Db, w: Write, used: set<Owner>, k: DeliveryKey, o: Owner)
    requires Inv(db) && ClaimOk(db, w, used) && o in used && !Holds(db, k, o)
    ensures !Holds(Perform(db, w), k, o)
  {
    if k in Perform(db, w).deliveries {
      if k in db.deliveries {
        assert DeliveryOk(db.events, db.bindings, k, db.deliveries[k]);
        AnyRow(db, w, k);
      } else if Delivering(w) {
        NoNewRows(db, w);
      } else {
        OthersLeaveRows(db, w);
      }
    }
  }

  lemma NoNewRows(db: Db, w: Write)
    requires Delivering(w)
    ensures forall k :: k in Perform(db, w).deliveries ==> k in db.deliveries
  {
    forall k | k in Perform(db, w).deliveries ensures k in db.deliveries {
      DeliveringKeys(db, w);
      assert k in Perform(db, w).deliveries.Keys;
    }
  }

  lemma DeliveringKeys(db: Db, w: Write)
    requires Delivering(w)
    ensures Perform(db, w).deliveries.Keys == db.deliveries.Keys
  {
    if k :| k in db.deliveries {
      DeliveringRow(db, w, k);
    } else {
      assert db.deliveries == map[];
      EmptyDeliveries(db, w);
    }
  }

  lemma EmptyDeliveries(db: Db, w: Write)
    requires Delivering(w) && db.deliveries == map[]
    ensures Perform(db, w).deliveries == map[]
  {
    match w
    case ClaimRows(owner, _, until, chosen) => assert Lease(db, owner, until, chosen).deliveries == map[];
    case EndDelivered(key, owner) => assert !Holds(db, key, owner);
    case EndDeferred(key, owner, next) => assert !Holds(db, key, owner);
    case EndFailed(key, owner, attempts, next, maxAttempts) => assert !Holds(db, key, owner);
    case RetryOne(key, now) => assert key !in db.deliveries;
  }

  /** While a lease is held, nobody but its holder moves the row, so its attempt count stands still. */
  lemma HeldStandsStill(db: Db, w: Write, used: set<Owner>, k: DeliveryKey, o: Owner)
    requires Inv(db) && ClaimOk(db, w, used) && o in used && Holds(db, k, o) && Holds(Perform(db, w), k, o)
    ensures Perform(db, w).deliveries[k] == db.deliveries[k]
  {
    AnyRow(db, w, k);
  }

  /** A row leased until `until`. */
  predicate LeasedUntil(db: Db, k: DeliveryKey, o: Owner, until: int) {
    && k in db.deliveries && db.deliveries[k].status == Sending && db.deliveries[k].owner == Some(o)
    && db.deliveries[k].leaseExpires == Some(until)
  }

  /** Nobody claims at or after `until`, and the holder does not complete the row. */
  ghost predicate Leaves(ws: seq<Write>, k: DeliveryKey, o: Owner, until: int) {
    && (forall i :: 0 <= i < |ws| && ws[i].ClaimRows? ==> ws[i].now < until)
    && (forall i :: 0 <= i < |ws| && Ends(ws[i]) ==> ws[i].key != k || ws[i].owner != o)
  }

  lemma LeaseStands(db: Db, w: Write, used: set<Owner>, k: DeliveryKey, o: Owner, until: int)
    requires Inv(db) && ClaimOk(db, w, used) && LeasedUntil(db, k, o, until) && k in Perform(db, w).deliveries
    requires Leaves([w], k, o, until)
    ensures Perform(db, w).deliveries[k] == db.deliveries[k]
  {
    hide Perform, Inv;
    assert [w][0] == w;
    AnyRow(db, w, k);
    if w.ClaimRows? {
      ChosenIsDue(db, w.now, w.chosen, k);
    }
  }

  lemma LeaseStandsNext(s: System, w: Write, used: set<Owner>, k: DeliveryKey, o: Owner, until: int)
    requires SystemOk(s) && ClaimOk(s.db, w, used) && LeasedUntil(s.db, k, o, until) && k in Next(s, w).db.deliveries
    requires Leaves([w], k, o, until)
    ensures Next(s, w).db.deliveries[k] == s.db.deliveries[k]
  {
    hide ClaimOk, Perform;
    LeaseStands(s.db, w, used, k, o, until);
  }

  /** No claim takes a row from its holder before the lease is over: until then only its holder moves it. */
  lemma {:induction false} KeptUntilDeadline(s: System, ws: seq<Write>, used: set<Owner>, k: DeliveryKey, o: Owner, until: int)
    requires SystemOk(s) && Claiming(s, ws, used) && Remains(s, ws, k) && LeasedUntil(s.db, k, o, until)
    requires Leaves(ws, k, o, until)
    ensures k in Run(s, ws).db.deliveries && Run(s, ws).db.deliveries[k] == s.db.deliveries[k]
    decreases |ws|
  {
    hide SystemOk, Perform, ClaimOk;
    if ws != [] {
      NextKeeps(s, ws[0]);
      assert k in Next(s, ws[0]).db.deliveries;
      LeaseStandsNext(s, ws[0], used, k, o, until) by {
        assert Leaves([ws[0]], k, o, until);
      }
      assert Leaves(ws[1..], k, o, until);
      KeptUntilDeadline(Next(s, ws[0]), ws[1..], UsedAfter(used, ws[0]), k, o, until);
    }
  }

  lemma {:induction false} LostForever(s: System, ws: seq<Write>, used: set<Owner>, k: DeliveryKey, o: Owner)
    requires SystemOk(s) && Claiming(s, ws, used) && o in used && !Holds(s.db, k, o)
    ensures !Holds(Run(s, ws).db, k, o)
    decreases |ws|
  {
    if ws != [] {
      NextKeeps(s, ws[0]);
      LostStaysLost(s.db, ws[0], used, k, o);
      LostForever(Next(s, ws[0]), ws[1..], UsedAfter(used, ws[0]), k, o);
    }
  }

  /** The attempt count MarkDeliveryFailed reads on another connection is still the row's count when its guarded
      write succeeds, whatever ran in between. */
  lemma {:induction false} AttemptsReadAreCurrent(s: System, ws: seq<Write>, used: set<Owner>, k: DeliveryKey, o: Owner)
    requires SystemOk(s) && Claiming(s, ws, used) && o in used && Holds(s.db, k, o) && Holds(Run(s, ws).db, k, o)
    ensures ReadAttempts(s.db, k, o) == ReadAttempts(Run(s, ws).db, k, o)
    ensures Run(s, ws).db.deliveries[k] == s.db.deliveries[k]
    decreases |ws|
  {
    if ws != [] {
      var t := Next(s, ws[0]);
      NextKeeps(s, ws[0]);
      if Holds(t.db, k, o) {
        HeldStandsStill(s.db, ws[0], used, k, o);
        AttemptsReadAreCurrent(t, ws[1..], UsedAfter(used, ws[0]), k, o);
      } else {
        LostForever(t, ws[1..], UsedAfter(used, ws[0]), k, o);
      }
    }
  }

  // ---- Completions ------------------------------------------------------------------------------------------

  datatype Completion = Completion(key: DeliveryKey, owner: Owner)

  /** The lease a write ends, if it ends one. */
  function CompletionOf(db: Db, w: Write): seq<Completion> {
    if (w.EndDelivered? || w.EndDeferred? || (w.EndFailed? && w.maxAttempts >= 1)) && Holds(db, w.key, w.owner)
    then [Completion(w.key, w.owner)] else []
  }

  function Completions(s: System, ws: seq<Write>): seq<Completion>
    decreases |ws|
  {
    if ws == [] then [] else CompletionOf(s.db, ws[0]) + Completions(Next(s, ws[0]), ws[1..])
  }

  lemma SettleEnds(db: Db, key: DeliveryKey, owner: Owner, status: DeliveryStatus, counted: nat, next: Option<int>)
    requires status != Sending
    ensures var b := Settle(db, key, owner, status, counted, next).db;
      && (!Holds(db, key, owner) ==> b == db)
      && (Holds(db, key, owner) ==> key in b.deliveries && b.deliveries[key].status == status && b.deliveries[key].owner.None?)
  {
  }

  /** A completion takes effect exactly for the lease currently held, and ends it. */
  lemma CompletionEnds(db: Db, w: Write)
    requires Ends(w) && (w.EndFailed? ==> w.maxAttempts >= 1)
    ensures !Holds(db, w.key, w.owner) ==> Perform(db, w) == db
    ensures Holds(db, w.key, w.owner) ==> w.key in Perform(db, w).deliveries && !Holds(Perform(db, w), w.key, w.owner)
  {
    match w
    case EndDelivered(key, owner) => SettleEnds(db, key, owner, Delivered, 0, None);
    case EndDeferred(key, owner, next) => SettleEnds(db, key, owner, Pending, 0, Some(next));
    case EndFailed(key, owner, attempts, next, maxAttempts) =>
      FailedIs(db, key, owner, attempts, next, maxAttempts);
      if attempts + 1 >= maxAttempts {
        SettleEnds(db, key, owner, Dead, 1, None);
      } else {
        SettleEnds(db, key, owner, Pending, 1, Some(next));
      }
  }

  lemma OwnerKnown(db: Db, used: set<Owner>, k: DeliveryKey, o: Owner)
    requires OwnersUsed(db, used) && Holds(db, k, o)
    ensures o in used
  {
  }

  lemma UsedGrows(db: Db, w: Write, used: set<Owner>)
    requires Inv(db) && OwnersUsed(db, used)
    ensures OwnersUsed(Perform(db, w), UsedAfter(used, w))
  {
    hide Inv, Perform;
    forall k | k in Perform(db, w).deliveries && Perform(db, w).deliveries[k].owner.Some?
      ensures Perform(db, w).deliveries[k].owner.value in UsedAfter(used, w)
    {
      if k in db.deliveries {
        AnyRow(db, w, k);
      } else if Delivering(w) {
        NoNewRows(db, w);
      } else {
        OthersLeaveRows(db, w);
      }
    }
  }

  /** A lease that is not held any more is not completed any more. */
  lemma {:induction false} NotCompletedAgain(s: System, ws: seq<Write>, used: set<Owner>, c: Completion)
    requires SystemOk(s) && Claiming(s, ws, used) && c.owner in used && !Holds(s.db, c.key, c.owner)
    ensures c !in Completions(s, ws)
    decreases |ws|
  {
    if ws != [] {
      NextKeeps(s, ws[0]);
      LostStaysLost(s.db, ws[0], used, c.key, c.owner);
      NotCompletedAgain(Next(s, ws[0]), ws[1..], UsedAfter(used, ws[0]), c);
    }
  }

  lemma FirstCompletion(s: System, w: Write, rest: seq<Write>, used: set<Owner>)
    requires SystemOk(s) && OwnersUsed(s.db, used) && ClaimOk(s.db, w, used) && Allowed(s, w)
    requires Claiming(Next(s, w), rest, UsedAfter(used, w)) && SystemOk(Next(s, w)) && CompletionOf(s.db, w) != []
    ensures CompletionOf(s.db, w)[0] !in Completions(Next(s, w), rest)
  {
    CompletionEnds(s.db, w);
    OwnerKnown(s.db, used, w.key, w.owner);
    NotCompletedAgain(Next(s, w), rest, UsedAfter(used, w), CompletionOf(s.db, w)[0]);
  }

  predicate Distinct(cs: seq<Completion>) {
    forall i, j :: 0 <= i < j < |cs| ==> cs[i] != cs[j]
  }

  lemma DistinctFirst(c: seq<Completion>, rest: seq<Completion>)
    requires Distinct(rest) && |c| <= 1 && (c != [] ==> c[0] !in rest)
    ensures Distinct(c + rest)
  {
  }

  /** In every run of concurrent claimers each lease is completed at most once. */
  lemma {:induction false} LeasesEndOnce(s: System, ws: seq<Write>, used: set<Owner>)
    requires SystemOk(s) && Claiming(s, ws, used) && OwnersUsed(s.db, used)
    ensures Distinct(Completions(s, ws))
    decreases |ws|
  {
    if ws != [] {
      NextKeeps(s, ws[0]);
      UsedGrows(s.db, ws[0], used);
      LeasesEndOnce(Next(s, ws[0]), ws[1..], UsedAfter(used, ws[0]));
      if CompletionOf(s.db, ws[0]) != [] {
        FirstCompletion(s, ws[0], ws[1..], used);
      }
      DistinctFirst(CompletionOf(s.db, ws[0]), Completions(Next(s, ws[0]), ws[1..]));
    }
  }
}
