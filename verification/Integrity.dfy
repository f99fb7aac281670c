/** The invariant of the tables that every write transaction keeps. */
module Integrity {
  import opened Schema
  import opened Transactions
  import opened Lifecycle

  // ---- One clause a table ---------------------------------------------------------------

  type Deployments = map<DeploymentId, Deployment>
  type Generations = map<GenKey, Generation>
  type Ledger = map<TxKey, LedgerRow>

  ghost predicate NamesOk(ds: Deployments, names: map<string, DeploymentId>) {
    && (forall n :: n in names ==> names[n] in ds && ds[names[n]].name == n)
    && (forall id :: id in ds ==> ds[id].name in names && names[ds[id].name] == id)
  }

  ghost predicate DeploymentOk(gs: Generations, id: DeploymentId, d: Deployment) {
    && (d.status != Active ==> d.activeGeneration == 0)
    && (d.activeGeneration > 0 ==> GenKey(id, d.activeGeneration) in gs)
  }

  ghost predicate DeploymentsOk(ds: Deployments, gs: Generations) {
    forall id :: id in ds ==> DeploymentOk(gs, id, ds[id])
  }

  /** A current row is the active generation of an active deployment; the converse is not promised. */
  ghost predicate GenerationOk(ds: Deployments, key: GenKey, g: Generation) {
    && key.dep in ds && key.dep != "" && key.gen >= 1
    && (g.status == Current <==> g.retiredAt.None?)
    && (g.status == Current ==>
          ds[key.dep].status == Active && ds[key.dep].activeGeneration == key.gen && g.lastSeq <= ds[key.dep].revision)
  }

  ghost predicate GenerationsOk(ds: Deployments, gs: Generations) {
    forall k :: k in gs ==> GenerationOk(ds, k, gs[k])
  }

  ghost predicate GenerationRowids(gs: Generations) {
    forall j, k :: j in gs && k in gs && j != k ==> gs[j].rowid != gs[k].rowid
  }

  ghost predicate ReceiptOk(ds: Deployments, gs: Generations, key: TxKey, row: LedgerRow) {
    var gk := GenKey(key.dep, key.gen);
    && gk in gs && key.dep in ds && 1 <= key.seqno <= gs[gk].lastSeq
    && row.result == row.base + 1
    && row.ack == Ack(key.dep, key.gen, key.seqno, row.hash, row.result, Accepted)
    && (gs[gk].status == Current ==> row.result == ds[key.dep].revision - gs[gk].lastSeq + key.seqno)
  }

  ghost predicate LedgerOk(ds: Deployments, gs: Generations, ledger: Ledger) {
    forall k :: k in ledger ==> ReceiptOk(ds, gs, k, ledger[k])
  }

  /** A current generation keeps every receipt it was ever given. */
  ghost predicate LedgerComplete(gs: Generations, ledger: Ledger) {
    forall k, s: nat {:trigger TxKey(k.dep, k.gen, s) in ledger} ::
      k in gs && gs[k].status == Current && 1 <= s <= gs[k].lastSeq ==> TxKey(k.dep, k.gen, s) in ledger
  }

  /** A destination identifier is never empty, and its revisions count from 1. */
  predicate Proper(k: BindingKey) {
    k.dest >= 1 && k.revision >= 1
  }

  ghost predicate OwnersOk(db: Db) {
    && (forall k :: k in db.checkpoints ==> k.dep in db.deployments)
    && (forall k :: k in db.bindings ==> k.dep in db.deployments && Proper(k))
    && db.health.Keys == db.deployments.Keys
  }

  ghost predicate EventOk(ds: Deployments, ledger: Ledger, e: EventRow) {
    && e.dep in ds
    && (e.kind == Monitor ==> TxKey(e.dep, e.gen, e.seqno) in ledger)
  }

  ghost predicate EventsOk(ds: Deployments, ledger: Ledger, es: map<OutboxId, EventRow>) {
    forall o :: o in es ==> EventOk(ds, ledger, es[o])
  }

  predicate SameOccurrence(a: EventRow, b: EventRow) {
    a.dep == b.dep && a.kind == b.kind && a.eventId == b.eventId
  }

  ghost predicate EventKeys(es: map<OutboxId, EventRow>) {
    forall o, p :: o in es && p in es && o != p ==> es[o].rowid != es[p].rowid && !SameOccurrence(es[o], es[p])
  }

  ghost predicate DeliveryOk(es: map<OutboxId, EventRow>, bs: map<BindingKey, Binding>, k: DeliveryKey, d: Delivery) {
    && k.outbox in es && es[k.outbox].dep == d.dep
    && BindingKey(d.dep, k.dest, d.revision) in bs
    && (d.status == Sending <==> d.owner.Some?)
    && (d.status == Sending <==> d.leaseExpires.Some?)
  }

  ghost predicate DeliveriesOk(es: map<OutboxId, EventRow>, bs: map<BindingKey, Binding>, ds: map<DeliveryKey, Delivery>) {
    forall k :: k in ds ==> DeliveryOk(es, bs, k, ds[k])
  }

  /** At most one revision of a destination is active. */
  ghost predicate BindingsOk(bs: map<BindingKey, Binding>) {
    forall j, k :: j in bs && k in bs && j.dep == k.dep && j.dest == k.dest && !bs[j].retired && !bs[k].retired ==> j == k
  }

  ghost predicate HealthOk(hs: map<DeploymentId, Health>) {
    forall id :: id in hs && hs[id].status == Healthy ==> hs[id].failures == 0 && !hs[id].notified
  }

  /** Lifecycle, fence and ledger. */
  ghost predicate FenceOk(db: Db) {
    && DeploymentsOk(db.deployments, db.generations)
    && GenerationsOk(db.deployments, db.generations)
    && GenerationRowids(db.generations)
    && LedgerOk(db.deployments, db.generations, db.ledger)
    && LedgerComplete(db.generations, db.ledger)
  }

  ghost predicate OutboxOk(db: Db) {
    && EventsOk(db.deployments, db.ledger, db.events)
    && EventKeys(db.events)
    && DeliveriesOk(db.events, db.bindings, db.deliveries)
  }

  ghost predicate Inv(db: Db) {
    && NamesOk(db.deployments, db.names)
    && FenceOk(db)
    && OwnersOk(db)
    && OutboxOk(db)
    && BindingsOk(db.bindings)
    && HealthOk(db.health)
  }

  lemma EmptyOk()
    ensures Inv(EMPTY_DB)
  {
  }

  // ---- What a write may do to the fence ---------------------------------------------------

  /** A generation row keeps its identity and sequence, and a retired one stays retired. */
  ghost predicate Carries(g: Generation, h: Generation) {
    && h.rowid == g.rowid && h.token == g.token && h.lastSeq == g.lastSeq
    && (h.status == Current ==> g.status == Current)
    && (h.status == Current <==> h.retiredAt.None?)
  }

  /** Everything the worker of a current generation of `dep` may rely on. */
  ghost predicate Undisturbed(a: Db, b: Db, dep: DeploymentId) {
    && dep in a.deployments && dep in b.deployments
    && b.deployments[dep].status == a.deployments[dep].status
    && b.deployments[dep].activeGeneration == a.deployments[dep].activeGeneration
    && b.deployments[dep].state == a.deployments[dep].state
    && b.deployments[dep].revision == a.deployments[dep].revision
    && CheckpointsOf(b, dep) == CheckpointsOf(a, dep)
    && ActiveBindings(b, dep) == ActiveBindings(a, dep)
  }

  ghost predicate SettlesRows(ds: Deployments, gs: Generations, hs: Generations) {
    && (forall k :: k in hs ==> k in gs && Carries(gs[k], hs[k]) && k.dep in ds)
    && (forall k :: k in gs && k !in hs ==> k.dep !in ds)
  }

  ghost predicate SettlesCurrent(a: Db, b: Db) {
    forall k :: IsCurrent(b, k) ==> Undisturbed(a, b, k.dep)
  }

  ghost predicate SettlesLedger(hs: Generations, l: Ledger, m: Ledger) {
    && (forall t :: t in m ==> t in l && m[t] == l[t] && GenKey(t.dep, t.gen) in hs)
    && (forall t :: t in l && GenKey(t.dep, t.gen) in hs && hs[GenKey(t.dep, t.gen)].status == Current ==> t in m)
  }

  /** A revision names one state; checkpoints are only ever cleared as a whole, and not while a generation is active. */
  ghost predicate Versioned(a: Db, b: Db, id: DeploymentId)
    requires id in a.deployments && id in b.deployments
  {
    var d := a.deployments[id];
    var e := b.deployments[id];
    && d.revision <= e.revision && (d.revision == e.revision ==> d.state == e.state)
    && (e.activeGeneration == d.activeGeneration || e.activeGeneration == 0)
    && (e.activeGeneration > 0 ==> CheckpointsOf(b, id) == CheckpointsOf(a, id))
    && (CheckpointsOf(b, id) == CheckpointsOf(a, id) || CheckpointsOf(b, id) == map[])
  }

  ghost predicate SettlesVersions(a: Db, b: Db) {
    forall id :: id in a.deployments && id in b.deployments ==> Versioned(a, b, id)
  }

  /** The effect of every write other than a transaction frame and an activation: generations are only
      retired, or purged with their deployment; what stays current is not disturbed; receipts are only
      deleted, and never those of a current generation. */
  ghost predicate Settles(a: Db, b: Db) {
    && SettlesRows(b.deployments, a.generations, b.generations)
    && SettlesCurrent(a, b)
    && SettlesLedger(b.generations, a.ledger, b.ledger)
    && SettlesVersions(a, b)
  }

  lemma SameVersions(a: Db, b: Db)
    requires b.deployments == a.deployments && b.checkpoints == a.checkpoints
    ensures SettlesVersions(a, b)
  {
  }

  lemma SettlesKeepsGenerations(a: Db, b: Db)
    requires GenerationsOk(a.deployments, a.generations) && GenerationRowids(a.generations)
    requires SettlesRows(b.deployments, a.generations, b.generations) && SettlesCurrent(a, b)
    ensures GenerationsOk(b.deployments, b.generations) && GenerationRowids(b.generations)
  {
    forall k | k in b.generations ensures GenerationOk(b.deployments, k, b.generations[k]) {
      assert GenerationOk(a.deployments, k, a.generations[k]);
      if b.generations[k].status == Current {
        assert IsCurrent(b, k);
      }
    }
  }

  lemma SettlesKeepsReceipts(a: Db, b: Db)
    requires LedgerOk(a.deployments, a.generations, a.ledger) && Settles(a, b)
    ensures LedgerOk(b.deployments, b.generations, b.ledger)
  {
    forall t | t in b.ledger ensures ReceiptOk(b.deployments, b.generations, t, b.ledger[t]) {
      assert ReceiptOk(a.deployments, a.generations, t, a.ledger[t]);
      if b.generations[GenKey(t.dep, t.gen)].status == Current {
        assert IsCurrent(b, GenKey(t.dep, t.gen));
      }
    }
  }

  lemma SettlesKeepsComplete(ds: Deployments, gs: Generations, hs: Generations, l: Ledger, m: Ledger)
    requires LedgerComplete(gs, l) && SettlesRows(ds, gs, hs) && SettlesLedger(hs, l, m)
    ensures LedgerComplete(hs, m)
  {
    forall k, s: nat | k in hs && hs[k].status == Current && 1 <= s <= hs[k].lastSeq
      ensures TxKey(k.dep, k.gen, s) in m
    {
      assert TxKey(k.dep, k.gen, s) in l;
      assert GenKey(TxKey(k.dep, k.gen, s).dep, TxKey(k.dep, k.gen, s).gen) == k;
    }
  }

  lemma SettlesKeepsFence(a: Db, b: Db)
    requires FenceOk(a) && Settles(a, b) && DeploymentsOk(b.deployments, b.generations)
    ensures FenceOk(b)
  {
    SettlesKeepsGenerations(a, b);
    SettlesKeepsReceipts(a, b);
    SettlesKeepsComplete(b.deployments, a.generations, b.generations, a.ledger, b.ledger);
  }

  /** Receipts untouched: what is left of `SettlesLedger` is that their generations still exist. */
  lemma SameLedgerSettles(ds: Deployments, gs: Generations, hs: Generations, l: Ledger)
    requires LedgerOk(ds, gs, l) && gs.Keys <= hs.Keys
    ensures SettlesLedger(hs, l, l)
  {
    forall t | t in l ensures GenKey(t.dep, t.gen) in hs {
      assert ReceiptOk(ds, gs, t, l[t]);
    }
  }

  lemma SameCheckpoints(a: Db, b: Db, dep: DeploymentId)
    requires forall k: CheckpointKey :: k.dep == dep ==> (k in a.checkpoints <==> k in b.checkpoints)
    requires forall k: CheckpointKey :: k.dep == dep && k in a.checkpoints ==> a.checkpoints[k] == b.checkpoints[k]
    ensures CheckpointsOf(a, dep) == CheckpointsOf(b, dep)
  {
  }

  lemma SameBindings(a: Db, b: Db, dep: DeploymentId)
    requires forall k: BindingKey :: k.dep == dep ==> (k in a.bindings <==> k in b.bindings)
    requires forall k: BindingKey :: k.dep == dep && k in a.bindings ==> a.bindings[k] == b.bindings[k]
    ensures ActiveBindings(a, dep) == ActiveBindings(b, dep)
  {
  }

  // ---- Transaction frames ---------------------------------------------------------------

  /** A frame that passed the ledger lookup and the fence. */
  ghost predicate Admitted(db: Db, f: Frame) {
    ValidFrame(f) && Lookup(db, f).None? && Refusal(db, f).None?
  }

  lemma AdvanceGenerations(db: Db, f: Frame)
    requires FenceOk(db) && Admitted(db, f)
    ensures DeploymentsOk(Advance(db, f).deployments, Advance(db, f).generations)
    ensures GenerationsOk(Advance(db, f).deployments, Advance(db, f).generations)
    ensures GenerationRowids(Advance(db, f).generations)
  {
    var b := Advance(db, f);
    forall k | k in b.generations ensures GenerationOk(b.deployments, k, b.generations[k]) {
      assert GenerationOk(db.deployments, k, db.generations[k]);
    }
  }

  lemma AdvanceReceipts(db: Db, f: Frame)
    requires FenceOk(db) && Admitted(db, f)
    ensures LedgerOk(Advance(db, f).deployments, Advance(db, f).generations, Advance(db, f).ledger)
  {
    var b := Advance(db, f);
    forall t | t in b.ledger ensures ReceiptOk(b.deployments, b.generations, t, b.ledger[t]) {
      if t != f.Key() {
        assert ReceiptOk(db.deployments, db.generations, t, db.ledger[t]);
        assert GenerationOk(db.deployments, GenKey(t.dep, t.gen), db.generations[GenKey(t.dep, t.gen)]);
      }
    }
  }

  lemma AdvanceComplete(db: Db, f: Frame)
    requires FenceOk(db) && Admitted(db, f)
    ensures LedgerComplete(Advance(db, f).generations, Advance(db, f).ledger)
  {
    var b := Advance(db, f);
    forall k, s: nat | k in b.generations && b.generations[k].status == Current && 1 <= s <= b.generations[k].lastSeq
      ensures TxKey(k.dep, k.gen, s) in b.ledger
    {
      if TxKey(k.dep, k.gen, s) != f.Key() {
        assert TxKey(k.dep, k.gen, s) in db.ledger;
      }
    }
  }

  lemma AdvanceFence(db: Db, f: Frame)
    requires FenceOk(db) && Admitted(db, f)
    ensures FenceOk(Advance(db, f))
  {
    AdvanceGenerations(db, f);
    AdvanceReceipts(db, f);
    AdvanceComplete(db, f);
  }

  lemma AdvanceNames(db: Db, f: Frame)
    requires NamesOk(db.deployments, db.names) && Admitted(db, f)
    ensures NamesOk(Advance(db, f).deployments, Advance(db, f).names)
  {
  }

  lemma AdvanceOwners(db: Db, f: Frame)
    requires OwnersOk(db) && Admitted(db, f)
    ensures OwnersOk(Advance(db, f))
  {
  }

  lemma AdvanceOutbox(db: Db, f: Frame)
    requires OutboxOk(db) && Admitted(db, f)
    ensures OutboxOk(Advance(db, f))
  {
  }

  lemma AdvanceKeeps(db: Db, f: Frame)
    requires Inv(db) && Admitted(db, f)
    ensures Inv(Advance(db, f))
  {
    AdvanceFence(db, f);
    AdvanceNames(db, f);
    AdvanceOwners(db, f);
    AdvanceOutbox(db, f);
  }

  // ---- Events ---------------------------------------------------------------------------

  lemma NewEventKeys(es: map<OutboxId, EventRow>, o: OutboxId, row: EventRow)
    requires EventKeys(es) && o !in es
    requires forall p :: p in es ==> es[p].rowid != row.rowid && !SameOccurrence(es[p], row)
    ensures EventKeys(es[o := row])
  {
  }

  lemma InsertEventRow(db: Db, f: Frame, e: OutboxEvent, now: int)
    requires OutboxOk(db) && f.dep in db.deployments && f.Key() in db.ledger && ValidEvent(e)
    requires InsertEvent(db, f, e, now).Ok?
    ensures EventsOk(db.deployments, db.ledger, InsertEvent(db, f, e, now).value.events)
    ensures EventKeys(InsertEvent(db, f, e, now).value.events)
  {
    var b := InsertEvent(db, f, e, now).value;
    if b != db {
      NewEventKeys(db.events, e.outboxId, b.events[e.outboxId]) by {
        assert forall o :: o in db.events ==> !SameOccurrence(db.events[o], b.events[e.outboxId]) by {
          assert forall o :: o in db.events ==> !Occupies(db.events[o], f.dep, Named(e.eventId));
        }
        var rows := set o | o in db.events :: db.events[o].rowid;
        assert forall o :: o in db.events ==> db.events[o].rowid in rows;
      }
    }
  }

  /** A delivery that was there before the event was inserted. */
  lemma EarlierDelivery(es: map<OutboxId, EventRow>, fs: map<OutboxId, EventRow>, bs: map<BindingKey, Binding>,
                        k: DeliveryKey, d: Delivery)
    requires DeliveryOk(es, bs, k, d) && forall o :: o in es ==> o in fs && fs[o] == es[o]
    ensures DeliveryOk(fs, bs, k, d)
  {
  }

  /** A delivery of the new event itself. */
  lemma NewDelivery(db: Db, f: Frame, e: OutboxEvent, now: int, k: DeliveryKey)
    requires ValidEvent(e) && InsertEvent(db, f, e, now).Ok? && k !in db.deliveries
    requires k in InsertEvent(db, f, e, now).value.deliveries
    ensures var b := InsertEvent(db, f, e, now).value; DeliveryOk(b.events, b.bindings, k, b.deliveries[k])
  {
  }

  lemma InsertDeliveryRows(db: Db, f: Frame, e: OutboxEvent, now: int)
    requires OutboxOk(db) && ValidEvent(e)
    requires InsertEvent(db, f, e, now).Ok?
    ensures DeliveriesOk(InsertEvent(db, f, e, now).value.events, db.bindings, InsertEvent(db, f, e, now).value.deliveries)
  {
    var b := InsertEvent(db, f, e, now).value;
    InsertEventExtends(db, f, e, now);
    InsertEventAdds(db, f, e, now);
    forall k | k in b.deliveries ensures DeliveryOk(b.events, db.bindings, k, b.deliveries[k]) {
      if k in db.deliveries {
        EarlierDelivery(db.events, b.events, db.bindings, k, db.deliveries[k]);
      } else {
        NewDelivery(db, f, e, now, k);
      }
    }
  }

  lemma InsertEventExtends(db: Db, f: Frame, e: OutboxEvent, now: int)
    requires ValidEvent(e) && InsertEvent(db, f, e, now).Ok?
    ensures var b := InsertEvent(db, f, e, now).value;
      && b.bindings == db.bindings && (forall o :: o in db.events ==> o in b.events && b.events[o] == db.events[o])
  {
  }

  lemma InsertEventAdds(db: Db, f: Frame, e: OutboxEvent, now: int)
    requires ValidEvent(e) && InsertEvent(db, f, e, now).Ok?
    ensures var b := InsertEvent(db, f, e, now).value;
      forall k :: k in db.deliveries ==> k in b.deliveries && b.deliveries[k] == db.deliveries[k]
  {
    var rows := DeliveryRows(f.dep, e.outboxId, e.deliveries, now);
    assert InsertEvent(db, f, e, now).value != db ==> forall k :: k in rows ==> k !in db.deliveries;
  }

  lemma InsertEventFrame(db: Db, f: Frame, e: OutboxEvent, now: int)
    requires ValidEvent(e)
    requires InsertEvent(db, f, e, now).Ok?
    ensures InsertEvent(db, f, e, now).value.(events := db.events, deliveries := db.deliveries) == db
  {
  }

  lemma InsertEventKeeps(db: Db, f: Frame, e: OutboxEvent, now: int)
    requires Inv(db) && f.dep in db.deployments && f.Key() in db.ledger && ValidEvent(e)
    requires InsertEvent(db, f, e, now).Ok?
    ensures Inv(InsertEvent(db, f, e, now).value)
    ensures InsertEvent(db, f, e, now).value.(events := db.events, deliveries := db.deliveries) == db
  {
    InsertEventFrame(db, f, e, now);
    InsertEventRow(db, f, e, now);
    InsertDeliveryRows(db, f, e, now);
    EventsReplaced(db, InsertEvent(db, f, e, now).value);
  }

  lemma EventsReplaced(a: Db, b: Db)
    requires Inv(a) && b.(events := a.events, deliveries := a.deliveries) == a
    requires EventsOk(a.deployments, a.ledger, b.events) && EventKeys(b.events)
    requires DeliveriesOk(b.events, a.bindings, b.deliveries)
    ensures Inv(b)
  {
  }

  lemma {:induction false} InsertEventsKeeps(db: Db, f: Frame, es: seq<OutboxEvent>, now: int)
    requires Inv(db) && f.dep in db.deployments && f.Key() in db.ledger
    requires forall i :: 0 <= i < |es| ==> ValidEvent(es[i])
    requires InsertEvents(db, f, es, now).Ok?
    ensures Inv(InsertEvents(db, f, es, now).value)
    ensures InsertEvents(db, f, es, now).value.(events := db.events, deliveries := db.deliveries) == db
  {
    if es != [] {
      var before := es[..|es| - 1];
      InsertEventsKeeps(db, f, before, now);
      InsertEventKeeps(InsertEvents(db, f, before, now).value, f, es[|es| - 1], now);
    }
  }

  lemma ApplyKeeps(db: Db, f: Frame, now: int)
    requires Inv(db)
    ensures Inv(Apply(db, f, now).db)
  {
    if TakesEffect(db, f, now) {
      AdvanceKeeps(db, f);
      InsertEventsKeeps(Advance(db, f), f, f.events, now);
    }
  }

  // ---- Lifecycle ------------------------------------------------------------------------

  /** What lifecycle writes leave alone: identities, receipts and the outbox; bindings are only added. */
  ghost predicate Moves(a: Db, b: Db) {
    && b.deployments.Keys == a.deployments.Keys
    && (forall id :: id in b.deployments ==> b.deployments[id].name == a.deployments[id].name)
    && b.names == a.names && b.health.Keys == a.health.Keys
    && b.ledger == a.ledger && b.events == a.events && b.deliveries == a.deliveries
    && (forall k :: k in b.checkpoints ==> k in a.checkpoints)
    && (forall k :: k in a.bindings ==> k in b.bindings)
    && (forall k :: k in b.bindings ==> k.dep in a.deployments && Proper(k))
    && BindingsOk(b.bindings)
  }

  lemma MovesNames(a: Db, b: Db)
    requires NamesOk(a.deployments, a.names) && Moves(a, b)
    ensures NamesOk(b.deployments, b.names)
  {
  }

  lemma MovesOwners(a: Db, b: Db)
    requires OwnersOk(a) && Moves(a, b)
    ensures OwnersOk(b)
  {
  }

  lemma MovesOutbox(a: Db, b: Db)
    requires OutboxOk(a) && Moves(a, b)
    ensures OutboxOk(b)
  {
    forall k | k in b.deliveries ensures DeliveryOk(b.events, b.bindings, k, b.deliveries[k]) {
      assert DeliveryOk(a.events, a.bindings, k, a.deliveries[k]);
    }
    forall o | o in b.events ensures EventOk(b.deployments, b.ledger, b.events[o]) {
      assert EventOk(a.deployments, a.ledger, a.events[o]);
    }
  }

  lemma LifecycleKeeps(a: Db, b: Db)
    requires Inv(a) && Settles(a, b) && Moves(a, b)
    requires DeploymentsOk(b.deployments, b.generations) && HealthOk(b.health)
    ensures Inv(b)
  {
    SettlesKeepsFence(a, b);
    MovesNames(a, b);
    MovesOwners(a, b);
    MovesOutbox(a, b);
  }

  /** The shape shared by the lifecycle writes. */
  ghost predicate LifecycleStep(a: Db, b: Db) {
    && Settles(a, b) && Moves(a, b)
    && DeploymentsOk(b.deployments, b.generations) && HealthOk(b.health)
  }

  // ---- Writes that fence ------------------------------------------------------------------

  ghost predicate FencesRows(gs: Generations, hs: Generations, deps: set<DeploymentId>) {
    && hs.Keys == gs.Keys
    && (forall k :: k in gs && k.dep !in deps ==> hs[k] == gs[k])
    && (forall k :: k in gs && k.dep in deps ==> Carries(gs[k], hs[k]) && hs[k].status == Retired)
  }

  ghost predicate FencesDeployments(ds: Deployments, es: Deployments, deps: set<DeploymentId>) {
    && es.Keys == ds.Keys
    && (forall id :: id in ds && id !in deps ==> es[id] == ds[id])
    && (forall id :: id in ds ==> es[id].name == ds[id].name)
    && (forall id :: id in ds && id in deps ==> es[id].activeGeneration == 0)
    && (forall id :: id in ds ==> ds[id].revision <= es[id].revision && (ds[id].revision == es[id].revision ==> ds[id].state == es[id].state))
  }

  ghost predicate FencesSources(a: Db, b: Db, deps: set<DeploymentId>) {
    && (forall k :: k in b.checkpoints ==> k in a.checkpoints)
    && (forall k :: k in a.checkpoints && k.dep !in deps ==> k in b.checkpoints && b.checkpoints[k] == a.checkpoints[k])
    && (b.checkpoints == a.checkpoints || forall k :: k in b.checkpoints ==> k.dep !in deps)
    && (forall k :: k in a.bindings ==> k in b.bindings)
    && (forall k :: k in a.bindings && k.dep !in deps ==> b.bindings[k] == a.bindings[k])
    && (forall k :: k in b.bindings && k !in a.bindings ==> k.dep in deps && Proper(k))
  }

  /** A write that fences the deployments `deps` and touches no other. */
  ghost predicate Fences(a: Db, b: Db, deps: set<DeploymentId>) {
    && FencesRows(a.generations, b.generations, deps)
    && FencesDeployments(a.deployments, b.deployments, deps)
    && FencesSources(a, b, deps)
    && BindingsOk(b.bindings)
    && b.names == a.names && b.health.Keys == a.health.Keys && HealthOk(b.health)
    && b.ledger == a.ledger && b.events == a.events && b.deliveries == a.deliveries
  }

  lemma FencesSettlesCurrent(a: Db, b: Db, deps: set<DeploymentId>)
    requires GenerationsOk(a.deployments, a.generations)
    requires FencesRows(a.generations, b.generations, deps) && FencesDeployments(a.deployments, b.deployments, deps)
    requires FencesSources(a, b, deps)
    ensures SettlesCurrent(a, b)
  {
    forall k | IsCurrent(b, k) ensures Undisturbed(a, b, k.dep) {
      assert GenerationOk(a.deployments, k, a.generations[k]);
      assert k.dep !in deps;
      SameCheckpoints(a, b, k.dep);
      SameBindings(a, b, k.dep);
    }
  }

  lemma FencesSettlesRows(ds: Deployments, gs: Generations, hs: Generations, deps: set<DeploymentId>)
    requires GenerationsOk(ds, gs) && FencesRows(gs, hs, deps)
    ensures SettlesRows(ds, gs, hs)
  {
    forall k | k in hs ensures Carries(gs[k], hs[k]) && k.dep in ds {
      assert GenerationOk(ds, k, gs[k]);
    }
  }

  lemma FencesKeepsDeployments(a: Db, b: Db, deps: set<DeploymentId>)
    requires DeploymentsOk(a.deployments, a.generations)
    requires FencesRows(a.generations, b.generations, deps) && FencesDeployments(a.deployments, b.deployments, deps)
    ensures DeploymentsOk(b.deployments, b.generations)
  {
    forall id | id in b.deployments ensures DeploymentOk(b.generations, id, b.deployments[id]) {
      assert DeploymentOk(a.generations, id, a.deployments[id]);
    }
  }

  lemma FencesVersions(a: Db, b: Db, deps: set<DeploymentId>)
    requires FencesDeployments(a.deployments, b.deployments, deps) && FencesSources(a, b, deps)
    ensures SettlesVersions(a, b)
  {
    forall id | id in a.deployments && id in b.deployments ensures Versioned(a, b, id) {
      FencesCheckpoints(a, b, deps, id);
    }
  }

  lemma FencesCheckpoints(a: Db, b: Db, deps: set<DeploymentId>, id: DeploymentId)
    requires FencesSources(a, b, deps)
    ensures CheckpointsOf(b, id) == CheckpointsOf(a, id) || (id in deps && CheckpointsOf(b, id) == map[])
  {
    if id !in deps || b.checkpoints == a.checkpoints {
      SameCheckpoints(a, b, id);
    }
  }

  lemma FencesMoves(a: Db, b: Db, deps: set<DeploymentId>)
    requires FenceOk(a) && OwnersOk(a) && Fences(a, b, deps) && deps <= a.deployments.Keys
    ensures LifecycleStep(a, b)
  {
    FencesSettlesCurrent(a, b, deps);
    FencesVersions(a, b, deps);
    FencesSettlesRows(a.deployments, a.generations, b.generations, deps);
    SettlesRowsSameKeys(a.deployments, b.deployments, a.generations, b.generations);
    SameLedgerSettles(a.deployments, a.generations, b.generations, a.ledger);
    FencesKeepsDeployments(a, b, deps);
    FencesIsMove(a, b, deps);
  }

  lemma SettlesRowsSameKeys(ds: Deployments, es: Deployments, gs: Generations, hs: Generations)
    requires SettlesRows(ds, gs, hs) && es.Keys == ds.Keys
    ensures SettlesRows(es, gs, hs)
  {
    forall id ensures id in es <==> id in ds {
      assert id in es.Keys <==> id in ds.Keys;
    }
  }

  lemma FencesIsMove(a: Db, b: Db, deps: set<DeploymentId>)
    requires OwnersOk(a) && Fences(a, b, deps) && deps <= a.deployments.Keys
    ensures Moves(a, b)
  {
  }

  /** A deployment that is not active has no current generation to retire. */
  lemma RetireNone(db: Db, id: DeploymentId, now: int)
    requires FenceOk(db) && id in db.deployments && db.deployments[id].status != Active
    ensures RetireAll(db.generations, {id}, now) == db.generations
    ensures db.deployments[id].activeGeneration == 0
  {
    assert DeploymentOk(db.generations, id, db.deployments[id]);
    forall k | k in db.generations && k.dep == id ensures db.generations[k].status == Retired {
      assert GenerationOk(db.deployments, k, db.generations[k]);
    }
  }

  lemma RetireAllFences(ds: Deployments, gs: Generations, deps: set<DeploymentId>, now: int)
    requires GenerationsOk(ds, gs)
    ensures FencesRows(gs, RetireAll(gs, deps, now), deps)
  {
    forall k | k in gs && k.dep in deps
      ensures Carries(gs[k], RetireAll(gs, deps, now)[k]) && RetireAll(gs, deps, now)[k].status == Retired
    {
      assert GenerationOk(ds, k, gs[k]);
    }
  }

  /** One deployment fenced: its row rewritten, its generations retired. */
  lemma FenceOneMoves(a: Db, b: Db, id: DeploymentId, now: int)
    requires FenceOk(a) && OwnersOk(a) && BindingsOk(b.bindings) && id in a.deployments && id in b.deployments
    requires b.deployments == a.deployments[id := b.deployments[id]]
    requires b.deployments[id].name == a.deployments[id].name && b.deployments[id].activeGeneration == 0
    requires a.deployments[id].revision < b.deployments[id].revision ||
      (a.deployments[id].revision == b.deployments[id].revision && a.deployments[id].state == b.deployments[id].state)
    requires b.generations == RetireAll(a.generations, {id}, now)
    requires FencesSources(a, b, {id})
    requires b.health.Keys == a.health.Keys && HealthOk(b.health)
    requires b == a.(deployments := b.deployments, generations := b.generations, checkpoints := b.checkpoints,
                     bindings := b.bindings, health := b.health)
    ensures LifecycleStep(a, b)
  {
    RetireAllFences(a.deployments, a.generations, {id}, now);
    FencesMoves(a, b, {id});
  }

  lemma SetStatusMoves(db: Db, id: DeploymentId, from: Status, to: Status, expires: Option<int>, now: int)
    requires FenceOk(db) && OwnersOk(db) && BindingsOk(db.bindings) && HealthOk(db.health)
    requires SetStatus(db, id, from, to, expires, now).reply.Ok?
    ensures LifecycleStep(db, SetStatus(db, id, from, to, expires, now).db)
  {
    if from != Active {
      RetireNone(db, id, now);
    }
    FenceOneMoves(db, SetStatus(db, id, from, to, expires, now).db, id, now);
  }

  lemma ArchiveMoves(db: Db, id: DeploymentId, now: int)
    requires FenceOk(db) && OwnersOk(db) && BindingsOk(db.bindings) && HealthOk(db.health)
    requires Archive(db, id, now).reply.Ok?
    ensures LifecycleStep(db, Archive(db, id, now).db)
  {
    RetireNone(db, id, now);
    FenceOneMoves(db, Archive(db, id, now).db, id, now);
  }

  lemma ReplaceStateMoves(db: Db, id: DeploymentId, base: nat, state: Json, now: int)
    requires FenceOk(db) && OwnersOk(db) && BindingsOk(db.bindings) && HealthOk(db.health)
    requires ReplaceState(db, id, base, state, now).reply.Ok?
    ensures LifecycleStep(db, ReplaceState(db, id, base, state, now).db)
  {
    FenceOneMoves(db, ReplaceState(db, id, base, state, now).db, id, now);
  }

  lemma ClearCheckpointsMoves(db: Db, id: DeploymentId, now: int)
    requires FenceOk(db) && OwnersOk(db) && BindingsOk(db.bindings) && HealthOk(db.health)
    requires ClearCheckpoints(db, id, now).reply.Ok?
    ensures LifecycleStep(db, ClearCheckpoints(db, id, now).db)
  {
    FenceOneMoves(db, ClearCheckpoints(db, id, now).db, id, now);
  }

  lemma ExpireFences(db: Db, due: set<DeploymentId>, now: int)
    requires GenerationsOk(db.deployments, db.generations) && BindingsOk(db.bindings) && HealthOk(db.health)
    requires due == set id | id in db.deployments && db.deployments[id].status == Active && Expired(db.deployments[id], now)
    ensures Fences(db, Expire(db, now).db, due)
  {
    RetireAllFences(db.deployments, db.generations, due, now);
    var b := Expire(db, now).db;
    assert b == db.(deployments := b.deployments, generations := b.generations, health := b.health);
  }

  lemma ExpireMoves(db: Db, now: int)
    requires FenceOk(db) && OwnersOk(db) && BindingsOk(db.bindings) && HealthOk(db.health)
    ensures LifecycleStep(db, Expire(db, now).db)
  {
    var due := set id | id in db.deployments && db.deployments[id].status == Active && Expired(db.deployments[id], now);
    ExpireFences(db, due, now);
    FencesMoves(db, Expire(db, now).db, due);
  }

  lemma RecoverRows(ds: Deployments, gs: Generations, hs: Generations, now: int)
    requires GenerationsOk(ds, gs) && hs.Keys == gs.Keys
    requires forall k :: k in gs ==> hs[k] == if gs[k].status == Current
      then gs[k].(status := Retired, retiredAt := Coalesce(gs[k].retiredAt, now)) else gs[k]
    ensures FencesRows(gs, hs, ds.Keys)
  {
    forall k | k in gs ensures Carries(gs[k], hs[k]) && hs[k].status == Retired && k.dep in ds.Keys {
      assert GenerationOk(ds, k, gs[k]);
    }
  }

  lemma RecoverDeployments(ds: Deployments, es: Deployments, gs: Generations)
    requires DeploymentsOk(ds, gs) && es.Keys == ds.Keys
    requires forall id :: id in ds ==> es[id] == if ds[id].status == Active then ds[id].(activeGeneration := 0) else ds[id]
    ensures FencesDeployments(ds, es, ds.Keys)
  {
    forall id | id in ds ensures es[id].activeGeneration == 0 {
      assert DeploymentOk(gs, id, ds[id]);
    }
  }

  lemma RecoverHealth(db: Db, now: int)
    requires HealthOk(db.health)
    ensures Recover(db, now).health.Keys == db.health.Keys && HealthOk(Recover(db, now).health)
  {
  }

  lemma RecoverFences(db: Db, now: int)
    requires DeploymentsOk(db.deployments, db.generations) && GenerationsOk(db.deployments, db.generations)
    requires BindingsOk(db.bindings) && HealthOk(db.health)
    ensures Fences(db, Recover(db, now), db.deployments.Keys)
  {
    hide BindingsOk, HealthOk, DeploymentsOk, GenerationsOk, FencesDeployments;
    var b := Recover(db, now);
    RecoverRows(db.deployments, db.generations, b.generations, now);
    RecoverDeployments(db.deployments, b.deployments, db.generations);
    RecoverHealth(db, now);
    assert b == db.(deployments := b.deployments, generations := b.generations, health := b.health);
    hide Recover;
  }

  lemma RecoverMoves(db: Db, now: int)
    requires FenceOk(db) && OwnersOk(db) && BindingsOk(db.bindings) && HealthOk(db.health)
    ensures LifecycleStep(db, Recover(db, now))
  {
    RecoverFences(db, now);
    FencesMoves(db, Recover(db, now), db.deployments.Keys);
  }

  // ---- Marks on one generation row --------------------------------------------------------

  lemma RowSettles(ds: Deployments, gs: Generations, key: GenKey, row: Generation)
    requires GenerationsOk(ds, gs) && key in gs && Carries(gs[key], row)
    ensures SettlesRows(ds, gs, gs[key := row])
  {
    forall k | k in gs ensures Carries(gs[k], gs[key := row][k]) && k.dep in ds {
      assert GenerationOk(ds, k, gs[k]);
    }
  }

  /** One generation row carried on; the deployments, their sources and the outbox as they were. */
  ghost predicate CarriesRow(a: Db, b: Db, key: GenKey) {
    && key in a.generations && key in b.generations && Carries(a.generations[key], b.generations[key])
    && b == a.(generations := a.generations[key := b.generations[key]], health := b.health)
    && b.health.Keys == a.health.Keys && HealthOk(b.health)
  }

  lemma RowSettlesCurrent(a: Db, b: Db, key: GenKey)
    requires GenerationsOk(a.deployments, a.generations) && CarriesRow(a, b, key)
    ensures SettlesCurrent(a, b)
  {
    forall k | IsCurrent(b, k) ensures Undisturbed(a, b, k.dep) {
      assert GenerationOk(a.deployments, k, a.generations[k]);
    }
  }

  lemma RowKeepsDeployments(a: Db, b: Db, key: GenKey)
    requires DeploymentsOk(a.deployments, a.generations) && CarriesRow(a, b, key)
    ensures DeploymentsOk(b.deployments, b.generations)
  {
    forall id | id in b.deployments ensures DeploymentOk(b.generations, id, b.deployments[id]) {
      assert DeploymentOk(a.generations, id, a.deployments[id]);
    }
  }

  lemma RowIsMove(a: Db, b: Db, key: GenKey)
    requires OwnersOk(a) && BindingsOk(a.bindings) && CarriesRow(a, b, key)
    ensures Moves(a, b) && HealthOk(b.health)
  {
  }

  lemma RowIsSettled(a: Db, b: Db, key: GenKey)
    requires GenerationsOk(a.deployments, a.generations) && CarriesRow(a, b, key)
    requires LedgerOk(a.deployments, a.generations, a.ledger) && LedgerComplete(a.generations, a.ledger)
    ensures Settles(a, b)
  {
    RowSettles(a.deployments, a.generations, key, b.generations[key]);
    SameVersions(a, b);
    SameLedgerSettles(a.deployments, a.generations, b.generations, a.ledger);
    RowSettlesCurrent(a, b, key);
  }

  lemma RowMoves(a: Db, b: Db, key: GenKey)
    requires FenceOk(a) && OwnersOk(a) && BindingsOk(a.bindings) && CarriesRow(a, b, key)
    ensures LifecycleStep(a, b)
  {
    RowIsSettled(a, b, key);
    RowKeepsDeployments(a, b, key);
    RowIsMove(a, b, key);
  }

  lemma MarkReadyMoves(db: Db, dep: DeploymentId, gen: nat, now: int)
    requires FenceOk(db) && OwnersOk(db) && BindingsOk(db.bindings) && HealthOk(db.health)
    requires MarkReady(db, dep, gen, now).reply.Ok?
    ensures LifecycleStep(db, MarkReady(db, dep, gen, now).db)
  {
    assert GenerationOk(db.deployments, GenKey(dep, gen), db.generations[GenKey(dep, gen)]);
    RowMoves(db, MarkReady(db, dep, gen, now).db, GenKey(dep, gen));
  }

  lemma MarkStoppedShape(db: Db, dep: DeploymentId, gen: nat, failed: bool, now: int)
    requires HealthOk(db.health) && MarkStopped(db, dep, gen, failed, now).reply.Ok?
    ensures var b := MarkStopped(db, dep, gen, failed, now).db;
      && b.health.Keys == db.health.Keys && HealthOk(b.health)
      && GenKey(dep, gen) in b.generations
      && b == db.(generations := db.generations[GenKey(dep, gen) := b.generations[GenKey(dep, gen)]], health := b.health)
  {
    var b := MarkStopped(db, dep, gen, failed, now).db;
    assert b == db.(generations := b.generations, health := b.health);
  }

  lemma MarkStoppedMoves(db: Db, dep: DeploymentId, gen: nat, failed: bool, now: int)
    requires FenceOk(db) && OwnersOk(db) && BindingsOk(db.bindings) && HealthOk(db.health)
    requires MarkStopped(db, dep, gen, failed, now).reply.Ok?
    ensures LifecycleStep(db, MarkStopped(db, dep, gen, failed, now).db)
  {
    MarkStoppedShape(db, dep, gen, failed, now);
    MarkStoppedRow(db.deployments, db.generations, db, dep, gen, failed, now);
    RowMoves(db, MarkStopped(db, dep, gen, failed, now).db, GenKey(dep, gen));
  }

  lemma MarkStoppedRow(ds: Deployments, gs: Generations, db: Db, dep: DeploymentId, gen: nat, failed: bool, now: int)
    requires db.generations == gs && GenerationsOk(ds, gs) && MarkStopped(db, dep, gen, failed, now).reply.Ok?
    ensures Carries(gs[GenKey(dep, gen)], MarkStopped(db, dep, gen, failed, now).db.generations[GenKey(dep, gen)])
  {
    assert GenerationOk(ds, GenKey(dep, gen), gs[GenKey(dep, gen)]);
    StoppedRow(db, dep, gen, failed, now);
    hide MarkStopped;
  }

  lemma StoppedRow(db: Db, dep: DeploymentId, gen: nat, failed: bool, now: int)
    requires MarkStopped(db, dep, gen, failed, now).reply.Ok?
    ensures GenKey(dep, gen) in db.generations && GenKey(dep, gen) in MarkStopped(db, dep, gen, failed, now).db.generations
    ensures var g := db.generations[GenKey(dep, gen)];
      MarkStopped(db, dep, gen, failed, now).db.generations[GenKey(dep, gen)] == g.(status := Retired, retiredAt := Coalesce(g.retiredAt, now))
  {
  }

  // ---- Activation -----------------------------------------------------------------------

  /** The tables just before the new generation row appears: the deployment is fenced. */
  ghost function FencedOff(db: Db, dep: DeploymentId, now: int): Db
    requires dep in db.deployments
  {
    db.(generations := RetireAll(db.generations, {dep}, now),
        deployments := db.deployments[dep := db.deployments[dep].(activeGeneration := 0)])
  }

  /** The new row becomes the active generation. */
  ghost function Opens(db: Db, key: GenKey, row: Generation): Db
    requires key.dep in db.deployments
  {
    db.(generations := db.generations[key := row],
        deployments := db.deployments[key.dep := db.deployments[key.dep].(activeGeneration := key.gen)])
  }

  lemma FencedMoves(db: Db, dep: DeploymentId, now: int)
    requires FenceOk(db) && OwnersOk(db) && BindingsOk(db.bindings) && HealthOk(db.health) && dep in db.deployments
    ensures LifecycleStep(db, FencedOff(db, dep, now))
  {
    FenceOneMoves(db, FencedOff(db, dep, now), dep, now);
  }

  lemma RetirePrior(ds: Deployments, gs: Generations, dep: DeploymentId, now: int)
    requires GenerationsOk(ds, gs) && dep in ds
    ensures var prior := GenKey(dep, ds[dep].activeGeneration);
      RetireAll(gs, {dep}, now) ==
      if prior in gs && gs[prior].status == Current && ds[dep].activeGeneration > 0
      then gs[prior := gs[prior].(status := Retired, retiredAt := Some(now))] else gs
  {
    forall k | k in gs && k.dep == dep && gs[k].status == Current
      ensures k == GenKey(dep, ds[dep].activeGeneration) && k.gen >= 1
    {
      assert GenerationOk(ds, k, gs[k]);
    }
  }

  ghost function NewRow(db: Db, s: Snapshot, fingerprint: string, token: Token): Generation {
    Generation(NextGenerationRow(db), token, s.artifact, s.configRevision, fingerprint, Current, 0, None, None)
  }

  lemma ActivateCurrent(db: Db, s: Snapshot, fingerprint: string, token: Token, now: int)
    requires Activate(db, s, fingerprint, token, now).reply.Ok?
    ensures s.dep in db.deployments && s.dep != ""
    ensures var d := db.deployments[s.dep];
      && d.status == Active && !Expired(d, now) && d.revision == s.revision && d.artifact == s.artifact
      && d.configRevision == s.configRevision && d.activeGeneration == s.activeGeneration
    ensures Activate(db, s, fingerprint, token, now).reply.value == LatestGeneration(db, s.dep) + 1
  {
  }

  /** A successful activation: the snapshot was current, the deployment is fenced, and the next number opens. */
  lemma ActivateOpens(db: Db, s: Snapshot, fingerprint: string, token: Token, now: int)
    requires FenceOk(db) && Activate(db, s, fingerprint, token, now).reply.Ok?
    ensures s.dep in db.deployments && s.dep != ""
    ensures var d := db.deployments[s.dep];
      && d.status == Active && !Expired(d, now) && d.revision == s.revision && d.artifact == s.artifact
      && d.configRevision == s.configRevision && d.activeGeneration == s.activeGeneration
    ensures Activate(db, s, fingerprint, token, now).reply.value == LatestGeneration(db, s.dep) + 1
    ensures var key := GenKey(s.dep, LatestGeneration(db, s.dep) + 1);
      Activate(db, s, fingerprint, token, now).db ==
      EnsureHealth(Opens(FencedOff(db, s.dep, now), key, NewRow(db, s, fingerprint, token)), s.dep, key.gen, Starting)
  {
    ActivateCurrent(db, s, fingerprint, token, now);
    RetirePrior(db.deployments, db.generations, s.dep, now);
  }

  lemma OpensGenerations(db: Db, key: GenKey, row: Generation)
    requires FenceOk(db) && key !in db.generations && key.dep in db.deployments && key.dep != "" && key.gen >= 1
    requires db.deployments[key.dep].status == Active && db.deployments[key.dep].activeGeneration == 0
    requires row.status == Current && row.lastSeq == 0 && row.retiredAt.None?
    requires forall k :: k in db.generations ==> db.generations[k].rowid != row.rowid
    ensures DeploymentsOk(Opens(db, key, row).deployments, Opens(db, key, row).generations)
    ensures GenerationsOk(Opens(db, key, row).deployments, Opens(db, key, row).generations)
    ensures GenerationRowids(Opens(db, key, row).generations)
  {
    var b := Opens(db, key, row);
    forall k | k in b.generations ensures GenerationOk(b.deployments, k, b.generations[k]) {
      if k != key {
        assert GenerationOk(db.deployments, k, db.generations[k]);
      }
    }
    forall id | id in b.deployments ensures DeploymentOk(b.generations, id, b.deployments[id]) {
      assert DeploymentOk(db.generations, id, db.deployments[id]);
    }
  }

  lemma OpensLedger(db: Db, key: GenKey, row: Generation)
    requires FenceOk(db) && key !in db.generations && key.dep in db.deployments
    requires row.status == Current && row.lastSeq == 0
    ensures LedgerOk(Opens(db, key, row).deployments, Opens(db, key, row).generations, db.ledger)
    ensures LedgerComplete(Opens(db, key, row).generations, db.ledger)
  {
    var b := Opens(db, key, row);
    forall t | t in db.ledger ensures ReceiptOk(b.deployments, b.generations, t, db.ledger[t]) {
      assert ReceiptOk(db.deployments, db.generations, t, db.ledger[t]);
    }
    forall k, s: nat | k in b.generations && b.generations[k].status == Current && 1 <= s <= b.generations[k].lastSeq
      ensures TxKey(k.dep, k.gen, s) in db.ledger
    {
      assert k != key;
    }
  }

  lemma OpensOwners(db: Db, key: GenKey, row: Generation)
    requires OwnersOk(db) && key.dep in db.deployments
    ensures OwnersOk(EnsureHealth(Opens(db, key, row), key.dep, key.gen, Starting))
  {
  }

  lemma OpensOutbox(db: Db, key: GenKey, row: Generation)
    requires OutboxOk(db) && key.dep in db.deployments
    ensures OutboxOk(EnsureHealth(Opens(db, key, row), key.dep, key.gen, Starting))
  {
  }

  lemma OpensNames(db: Db, key: GenKey, row: Generation)
    requires NamesOk(db.deployments, db.names) && key.dep in db.deployments
    ensures NamesOk(Opens(db, key, row).deployments, db.names)
  {
  }

  lemma FencedKeeps(db: Db, dep: DeploymentId, now: int)
    requires Inv(db) && dep in db.deployments
    ensures Inv(FencedOff(db, dep, now)) && Settles(db, FencedOff(db, dep, now))
  {
    FencedMoves(db, dep, now);
    LifecycleKeeps(db, FencedOff(db, dep, now));
  }

  lemma OpensKeeps(db: Db, key: GenKey, row: Generation)
    requires Inv(db) && key !in db.generations && key.dep in db.deployments && key.dep != "" && key.gen >= 1
    requires db.deployments[key.dep].status == Active && db.deployments[key.dep].activeGeneration == 0
    requires row.status == Current && row.lastSeq == 0 && row.retiredAt.None?
    requires forall k :: k in db.generations ==> db.generations[k].rowid != row.rowid
    ensures Inv(EnsureHealth(Opens(db, key, row), key.dep, key.gen, Starting))
  {
    OpensGenerations(db, key, row);
    OpensLedger(db, key, row);
    OpensOwners(db, key, row);
    OpensOutbox(db, key, row);
    OpensNames(db, key, row);
    OpensHealth(db, key, row);
  }

  lemma OpensHealth(db: Db, key: GenKey, row: Generation)
    requires HealthOk(db.health) && key.dep in db.deployments
    ensures HealthOk(EnsureHealth(Opens(db, key, row), key.dep, key.gen, Starting).health)
  {
  }

  lemma ActivateKeeps(db: Db, s: Snapshot, fingerprint: string, token: Token, now: int)
    requires Inv(db)
    ensures Inv(Activate(db, s, fingerprint, token, now).db)
  {
    if Activate(db, s, fingerprint, token, now).reply.Ok? {
      ActivateOpens(db, s, fingerprint, token, now);
      FencedKeeps(db, s.dep, now);
      FreshRow(db);
      OpensKeeps(FencedOff(db, s.dep, now), GenKey(s.dep, LatestGeneration(db, s.dep) + 1), NewRow(db, s, fingerprint, token));
    }
  }

  lemma FreshRow(db: Db)
    ensures forall k :: k in db.generations ==> db.generations[k].rowid < NextGenerationRow(db)
  {
    var rows := set k | k in db.generations :: db.generations[k].rowid;
    assert forall k :: k in db.generations ==> db.generations[k].rowid in rows;
  }

  // ---- Deploy ---------------------------------------------------------------------------

  /** A new deployment row with its name and health, before its destinations exist. */
  ghost function Introduce(db: Db, id: DeploymentId, d: Deployment): Db {
    db.(deployments := db.deployments[id := d], names := db.names[d.name := id],
        health := db.health[id := Health(0, Starting, 0, false)])
  }

  lemma IntroduceKeeps(db: Db, id: DeploymentId, d: Deployment)
    requires Inv(db) && id !in db.deployments && d.name !in db.names && d.activeGeneration == 0
    ensures Inv(Introduce(db, id, d))
    ensures Settles(db, Introduce(db, id, d))
  {
    var b := Introduce(db, id, d);
    IntroduceSettles(db, id, d);
    IntroduceDeployments(db, id, d);
    SettlesKeepsFence(db, b);
    IntroduceRest(db, id, d);
  }

  lemma IntroduceSettles(db: Db, id: DeploymentId, d: Deployment)
    requires FenceOk(db) && id !in db.deployments
    ensures Settles(db, Introduce(db, id, d))
  {
    var b := Introduce(db, id, d);
    UnchangedSettles(db.deployments, b.deployments, db.generations);
    IntroduceVersions(db, id, d);
    SameLedgerSettles(db.deployments, db.generations, db.generations, db.ledger);
    forall k | IsCurrent(b, k) ensures Undisturbed(db, b, k.dep) {
      assert GenerationOk(db.deployments, k, db.generations[k]);
    }
  }

  lemma IntroduceVersions(db: Db, id: DeploymentId, d: Deployment)
    requires id !in db.deployments
    ensures SettlesVersions(db, Introduce(db, id, d))
  {
  }

  lemma UnchangedSettles(ds: Deployments, es: Deployments, gs: Generations)
    requires GenerationsOk(ds, gs) && ds.Keys <= es.Keys
    ensures SettlesRows(es, gs, gs)
  {
    forall k | k in gs ensures Carries(gs[k], gs[k]) && k.dep in es {
      assert GenerationOk(ds, k, gs[k]);
      assert k.dep in ds.Keys;
    }
  }

  lemma IntroduceDeployments(db: Db, id: DeploymentId, d: Deployment)
    requires DeploymentsOk(db.deployments, db.generations) && id !in db.deployments && d.activeGeneration == 0
    ensures DeploymentsOk(Introduce(db, id, d).deployments, db.generations)
  {
  }

  lemma IntroduceNames(db: Db, id: DeploymentId, d: Deployment)
    requires NamesOk(db.deployments, db.names) && id !in db.deployments && d.name !in db.names
    ensures NamesOk(Introduce(db, id, d).deployments, Introduce(db, id, d).names)
  {
  }

  lemma IntroduceOwners(db: Db, id: DeploymentId, d: Deployment)
    requires OwnersOk(db) && HealthOk(db.health)
    ensures OwnersOk(Introduce(db, id, d)) && HealthOk(Introduce(db, id, d).health)
  {
  }

  lemma IntroduceOutbox(db: Db, id: DeploymentId, d: Deployment)
    requires OutboxOk(db)
    ensures OutboxOk(Introduce(db, id, d))
  {
  }

  lemma IntroduceRest(db: Db, id: DeploymentId, d: Deployment)
    requires NamesOk(db.deployments, db.names) && OwnersOk(db) && OutboxOk(db) && HealthOk(db.health)
    requires id !in db.deployments && d.name !in db.names
    ensures NamesOk(Introduce(db, id, d).deployments, Introduce(db, id, d).names)
    ensures OwnersOk(Introduce(db, id, d)) && OutboxOk(Introduce(db, id, d)) && HealthOk(Introduce(db, id, d).health)
  {
    hide NamesOk, OwnersOk, OutboxOk, HealthOk;
    IntroduceNames(db, id, d);
    IntroduceOwners(db, id, d);
    IntroduceOutbox(db, id, d);
  }

  /** Deploying over an existing row fences it; a new name is introduced first. */
  ghost function DeployBase(db: Db, newId: DeploymentId, i: DeployInput): Db {
    if i.name in db.names then db
    else match DeployRow(db, newId, i) case Ok(row) => Introduce(db, newId, row) case Err(_) => db
  }

  lemma DeployFences(db: Db, newId: DeploymentId, i: DeployInput, now: int)
    requires Inv(db) && newId !in db.deployments && Deploy(db, newId, i, now).reply.Ok?
    ensures Inv(DeployBase(db, newId, i)) && Settles(db, DeployBase(db, newId, i))
    ensures LifecycleStep(DeployBase(db, newId, i), Deploy(db, newId, i, now).db)
  {
    var id := Deploy(db, newId, i, now).reply.value;
    var base := DeployBase(db, newId, i);
    if i.name in db.names {
      SettlesSelf(db);
    } else {
      IntroduceKeeps(db, newId, DeployRow(db, newId, i).value);
    }
    DeployIsFence(db, newId, i, now);
    FencesMoves(base, Deploy(db, newId, i, now).db, {id});
  }

  lemma DeployIsFence(db: Db, newId: DeploymentId, i: DeployInput, now: int)
    requires FenceOk(db) && NamesOk(db.deployments, db.names) && OwnersOk(db)
    requires BindingsOk(db.bindings) && HealthOk(db.health) && newId !in db.deployments && Deploy(db, newId, i, now).reply.Ok?
    ensures Fences(DeployBase(db, newId, i), Deploy(db, newId, i, now).db, {Deploy(db, newId, i, now).reply.value})
    ensures Deploy(db, newId, i, now).reply.value in DeployBase(db, newId, i).deployments
  {
    RetireAllFences(db.deployments, db.generations, {Deploy(db, newId, i, now).reply.value}, now);
    DeploySources(db, newId, i, now);
    if i.name in db.names {
      RedeployRows(db, newId, i, now);
    } else {
      FirstDeployRows(db, newId, i, now);
    }
    DeployOutbox(db, newId, i, now);
  }

  /** The parts of a deploy that its fence does not constrain. */
  ghost predicate DeploysRow(base: Db, b: Db, id: DeploymentId) {
    && id in base.deployments && FencesDeployments(base.deployments, b.deployments, {id})
    && b.names == base.names && b.health.Keys == base.health.Keys && HealthOk(b.health)
  }

  lemma RedeployRows(db: Db, newId: DeploymentId, i: DeployInput, now: int)
    requires NamesOk(db.deployments, db.names) && db.health.Keys == db.deployments.Keys && HealthOk(db.health)
    requires i.name in db.names && Deploy(db, newId, i, now).reply.Ok?
    ensures DeploysRow(db, Deploy(db, newId, i, now).db, Deploy(db, newId, i, now).reply.value)
  {
    RedeployDeployments(db, newId, i, now);
    RedeployHealth(db, newId, i, now);
  }

  lemma RedeployDeployments(db: Db, newId: DeploymentId, i: DeployInput, now: int)
    requires NamesOk(db.deployments, db.names)
    requires i.name in db.names && Deploy(db, newId, i, now).reply.Ok?
    ensures var id := Deploy(db, newId, i, now).reply.value;
      && id in db.deployments && FencesDeployments(db.deployments, Deploy(db, newId, i, now).db.deployments, {id})
      && Deploy(db, newId, i, now).db.names == db.names
  {
    var id := db.names[i.name];
    var b := Deploy(db, newId, i, now).db;
    assert db.deployments[id].name == i.name;
    assert b.deployments == db.deployments[id := b.deployments[id]];
    assert b.names == db.names;
  }

  lemma RedeployHealth(db: Db, newId: DeploymentId, i: DeployInput, now: int)
    requires db.health.Keys == db.deployments.Keys && HealthOk(db.health)
    requires i.name in db.names && db.names[i.name] in db.deployments && Deploy(db, newId, i, now).reply.Ok?
    ensures Deploy(db, newId, i, now).db.health.Keys == db.health.Keys && HealthOk(Deploy(db, newId, i, now).db.health)
  {
  }

  lemma FirstDeployRows(db: Db, newId: DeploymentId, i: DeployInput, now: int)
    requires newId !in db.health && HealthOk(db.health)
    requires i.name !in db.names && Deploy(db, newId, i, now).reply.Ok?
    ensures DeploysRow(DeployBase(db, newId, i), Deploy(db, newId, i, now).db, newId)
  {
    var b := Deploy(db, newId, i, now).db;
    assert b.deployments == DeployBase(db, newId, i).deployments;
    assert b.health == DeployBase(db, newId, i).health;
  }

  lemma BaseOutbox(db: Db, newId: DeploymentId, i: DeployInput)
    ensures var base := DeployBase(db, newId, i);
      base.generations == db.generations && base.ledger == db.ledger && base.events == db.events && base.deliveries == db.deliveries
  {
  }

  lemma DeployKeepsOutbox(db: Db, newId: DeploymentId, i: DeployInput, now: int)
    requires Deploy(db, newId, i, now).reply.Ok?
    ensures var b := Deploy(db, newId, i, now).db;
      && b.generations == RetireAll(db.generations, {Deploy(db, newId, i, now).reply.value}, now)
      && b.ledger == db.ledger && b.events == db.events && b.deliveries == db.deliveries
  {
  }

  lemma DeployOutbox(db: Db, newId: DeploymentId, i: DeployInput, now: int)
    requires Deploy(db, newId, i, now).reply.Ok?
    ensures var base := DeployBase(db, newId, i);
      var b := Deploy(db, newId, i, now).db;
      && b.generations == RetireAll(db.generations, {Deploy(db, newId, i, now).reply.value}, now)
      && base.generations == db.generations && b.ledger == base.ledger && b.events == base.events && b.deliveries == base.deliveries
  {
    BaseOutbox(db, newId, i);
    DeployKeepsOutbox(db, newId, i, now);
  }

  lemma DeploySources(db: Db, newId: DeploymentId, i: DeployInput, now: int)
    requires Deploy(db, newId, i, now).reply.Ok?
    ensures FencesSources(DeployBase(db, newId, i), Deploy(db, newId, i, now).db, {Deploy(db, newId, i, now).reply.value})
    ensures BindingsOk(db.bindings) ==> BindingsOk(Deploy(db, newId, i, now).db.bindings)
  {
    BaseSources(db, newId, i);
    DeployKeepsSources(db, newId, i, now);
    DeployBindings(db.bindings, Deploy(db, newId, i, now).reply.value, i.destinations);
  }

  lemma BaseSources(db: Db, newId: DeploymentId, i: DeployInput)
    ensures DeployBase(db, newId, i).checkpoints == db.checkpoints && DeployBase(db, newId, i).bindings == db.bindings
  {
  }

  lemma DeployKeepsSources(db: Db, newId: DeploymentId, i: DeployInput, now: int)
    requires Deploy(db, newId, i, now).reply.Ok?
    ensures var b := Deploy(db, newId, i, now).db;
      && b.checkpoints == db.checkpoints
      && b.bindings == RetireBindings(db.bindings, Deploy(db, newId, i, now).reply.value)
                       + NewBindings(db.bindings, Deploy(db, newId, i, now).reply.value, i.destinations)
  {
    var id := if i.name in db.names then db.names[i.name] else newId;
    var b := Deploy(db, newId, i, now).db;
    assert Deploy(db, newId, i, now).reply == Ok(id);
    assert b == db.(deployments := b.deployments, names := b.names, health := b.health, generations := b.generations,
                    bindings := RetireBindings(db.bindings, id) + NewBindings(db.bindings, id, i.destinations));
  }

  lemma DeployBindings(bs: map<BindingKey, Binding>, id: DeploymentId, destinations: seq<Json>)
    ensures var cs := RetireBindings(bs, id) + NewBindings(bs, id, destinations);
      && (forall k :: k in bs ==> k in cs)
      && (forall k :: k in bs && k.dep != id ==> cs[k] == bs[k])
      && (forall k :: k in cs && k !in bs ==> k.dep == id && Proper(k))
      && (forall k :: k in bs && k.dep == id ==> cs[k].retired)
      && (BindingsOk(bs) ==> BindingsOk(cs))
  {
    forall k | k in NewBindings(bs, id, destinations) ensures k !in bs && k.dep == id && Proper(k) {
      var j :| 0 <= j < |destinations| && k == NewBindingKey(bs, id, j);
      assert LatestBinding(bs, id, j + 1) < k.revision;
    }
  }

  lemma SettlesSelf(db: Db)
    requires FenceOk(db)
    ensures Settles(db, db)
  {
    UnchangedSettles(db.deployments, db.deployments, db.generations);
    SameVersions(db, db);
    SameLedgerSettles(db.deployments, db.generations, db.generations, db.ledger);
    forall k | IsCurrent(db, k) ensures Undisturbed(db, db, k.dep) {
      assert GenerationOk(db.deployments, k, db.generations[k]);
    }
  }

  lemma DeployKeeps(db: Db, newId: DeploymentId, i: DeployInput, now: int)
    requires Inv(db) && newId !in db.deployments
    ensures Inv(Deploy(db, newId, i, now).db)
  {
    if Deploy(db, newId, i, now).reply.Ok? {
      DeployFences(db, newId, i, now);
      LifecycleKeeps(DeployBase(db, newId, i), Deploy(db, newId, i, now).db);
    }
  }

  // ---- Purge ----------------------------------------------------------------------------

  lemma DeleteSettlesRows(ds: Deployments, gs: Generations, id: DeploymentId)
    requires GenerationsOk(ds, gs) && id in ds
    ensures SettlesRows(ds - {id}, gs, map k | k in gs && k.dep != id :: gs[k])
  {
    forall k | k in gs && k.dep != id ensures Carries(gs[k], gs[k]) && k.dep in ds - {id} {
      assert GenerationOk(ds, k, gs[k]);
    }
  }

  lemma DeleteSettlesLedger(ds: Deployments, gs: Generations, l: Ledger, id: DeploymentId)
    requires LedgerOk(ds, gs, l)
    ensures SettlesLedger(map k | k in gs && k.dep != id :: gs[k], l, map t | t in l && t.dep != id :: l[t])
  {
    forall t | t in l && t.dep != id ensures GenKey(t.dep, t.gen) in gs {
      assert ReceiptOk(ds, gs, t, l[t]);
    }
  }

  lemma DeleteVersions(db: Db, id: DeploymentId)
    ensures SettlesVersions(db, DeleteDeployment(db, id))
  {
    var b := DeleteDeployment(db, id);
    forall j | j in db.deployments && j in b.deployments ensures Versioned(db, b, j) {
      SameCheckpoints(db, b, j);
    }
  }

  lemma DeleteSettles(db: Db, id: DeploymentId)
    requires FenceOk(db) && id in db.deployments
    ensures Settles(db, DeleteDeployment(db, id))
  {
    var b := DeleteDeployment(db, id);
    DeleteSettlesRows(db.deployments, db.generations, id);
    DeleteSettlesLedger(db.deployments, db.generations, db.ledger, id);
    DeleteVersions(db, id);
    assert SettlesCurrent(db, b) by {
      forall k | IsCurrent(b, k) ensures Undisturbed(db, b, k.dep) {
        assert GenerationOk(db.deployments, k, db.generations[k]);
        SameCheckpoints(db, b, k.dep);
        SameBindings(db, b, k.dep);
      }
    }
  }

  lemma DeleteDeployments(db: Db, id: DeploymentId)
    requires DeploymentsOk(db.deployments, db.generations)
    ensures DeploymentsOk(DeleteDeployment(db, id).deployments, DeleteDeployment(db, id).generations)
  {
    var b := DeleteDeployment(db, id);
    forall j | j in b.deployments ensures DeploymentOk(b.generations, j, b.deployments[j]) {
      assert DeploymentOk(db.generations, j, db.deployments[j]);
    }
  }

  lemma DeleteOutbox(db: Db, id: DeploymentId)
    requires OutboxOk(db)
    ensures OutboxOk(DeleteDeployment(db, id))
  {
    var b := DeleteDeployment(db, id);
    forall o | o in b.events ensures EventOk(b.deployments, b.ledger, b.events[o]) {
      assert EventOk(db.deployments, db.ledger, db.events[o]);
    }
    forall k | k in b.deliveries ensures DeliveryOk(b.events, b.bindings, k, b.deliveries[k]) {
      assert DeliveryOk(db.events, db.bindings, k, db.deliveries[k]);
    }
  }

  lemma DeleteRest(db: Db, id: DeploymentId)
    requires NamesOk(db.deployments, db.names) && OwnersOk(db) && BindingsOk(db.bindings) && HealthOk(db.health)
    ensures BindingsOk(DeleteDeployment(db, id).bindings)
    ensures NamesOk(DeleteDeployment(db, id).deployments, DeleteDeployment(db, id).names)
    ensures OwnersOk(DeleteDeployment(db, id)) && HealthOk(DeleteDeployment(db, id).health)
  {
  }

  lemma PurgeKeeps(db: Db, id: DeploymentId, force: bool)
    requires Inv(db)
    ensures Inv(Purge(db, id, force).db) && Settles(db, Purge(db, id, force).db)
  {
    if Purge(db, id, force).reply.Ok? {
      DeleteSettles(db, id);
      DeleteDeployments(db, id);
      SettlesKeepsFence(db, DeleteDeployment(db, id));
      DeleteOutbox(db, id);
      DeleteRest(db, id);
    } else {
      SettlesSelf(db);
    }
  }
}
