/** Which deliveries a transaction frame leaves behind. */
module Fanout {
  import opened Schema
  import opened Transactions
  import opened Integrity
  import opened History

  type Events = map<OutboxId, EventRow>
  type Deliveries = map<DeliveryKey, Delivery>

  ghost predicate Rooted(es: Events, ds: Deliveries) {
    forall k :: k in ds ==> k.outbox in es
  }

  lemma RootedOutbox(db: Db)
    requires DeliveriesOk(db.events, db.bindings, db.deliveries)
    ensures Rooted(db.events, db.deliveries)
  {
    forall k | k in db.deliveries ensures k.outbox in db.events {
      assert DeliveryOk(db.events, db.bindings, k, db.deliveries[k]);
    }
  }

  /** The deliveries of `o` are exactly those listed, all waiting to be sent for the first time. */
  ghost predicate DeliveredTo(ds: Deliveries, dep: DeploymentId, o: OutboxId, listed: seq<OutboxDelivery>, now: int) {
    && (forall k :: k in ds && k.outbox == o ==> exists d :: d in listed && d.dest == k.dest)
    && (forall d :: d in listed ==>
          DeliveryKey(o, d.dest) in ds && ds[DeliveryKey(o, d.dest)] == Delivery(dep, d.revision, Pending, 0, now, None, None))
  }

  /** `o` is the outbox row of event `e`, with its deliveries. */
  ghost predicate Recorded(es: Events, ds: Deliveries, f: Frame, e: OutboxEvent, now: int) {
    && e.outboxId in es
    && es[e.outboxId] == EventRow(es[e.outboxId].rowid, f.dep, Monitor, f.gen, f.seqno, Named(e.eventId), e.message, now)
    && DeliveredTo(ds, f.dep, e.outboxId, e.deliveries, now)
  }

  /** Rows that were there stay as they were, and nothing is added to their deliveries. */
  ghost predicate Extends(es: Events, ds: Deliveries, fs: Events, gs: Deliveries) {
    && (forall o :: o in es ==> o in fs && fs[o] == es[o])
    && (forall k :: k in ds ==> k in gs && gs[k] == ds[k])
    && (forall k :: k in gs && k !in ds ==> k.outbox !in es)
    && Rooted(fs, gs)
  }

  lemma AddedExtends(es: Events, ds: Deliveries, o: OutboxId, row: EventRow, rows: Deliveries)
    requires Rooted(es, ds) && o !in es && forall k :: k in rows ==> k.outbox == o
    ensures Extends(es, ds, es[o := row], ds + rows)
  {
  }

  lemma InsertExtends(db: Db, f: Frame, e: OutboxEvent, now: int)
    requires Rooted(db.events, db.deliveries) && ValidEvent(e) && InsertEvent(db, f, e, now).Ok?
    ensures var b := InsertEvent(db, f, e, now).value; Extends(db.events, db.deliveries, b.events, b.deliveries)
    ensures InsertEvent(db, f, e, now).value.events.Keys <= db.events.Keys + {e.outboxId}
  {
    var b := InsertEvent(db, f, e, now).value;
    if b != db {
      AddedExtends(db.events, db.deliveries, e.outboxId, b.events[e.outboxId], DeliveryRows(f.dep, e.outboxId, e.deliveries, now));
    }
  }

  lemma RowsDelivered(dep: DeploymentId, o: OutboxId, listed: seq<OutboxDelivery>, now: int)
    requires ValidDeliveries(listed)
    ensures DeliveredTo(DeliveryRows(dep, o, listed, now), dep, o, listed, now)
  {
    var rows := DeliveryRows(dep, o, listed, now);
    forall d | d in listed
      ensures DeliveryKey(o, d.dest) in rows && rows[DeliveryKey(o, d.dest)] == Delivery(dep, d.revision, Pending, 0, now, None, None)
    {
      var c :| c in listed && DeliveryKey(o, c.dest) == DeliveryKey(o, d.dest)
        && rows[DeliveryKey(o, d.dest)] == Delivery(dep, c.revision, Pending, 0, now, None, None);
      assert c == d;
    }
  }

  lemma InsertRecords(db: Db, f: Frame, e: OutboxEvent, now: int)
    requires Rooted(db.events, db.deliveries) && ValidEvent(e) && InsertEvent(db, f, e, now).Ok?
    requires e.outboxId !in db.events && e.outboxId in InsertEvent(db, f, e, now).value.events
    ensures var b := InsertEvent(db, f, e, now).value; Recorded(b.events, b.deliveries, f, e, now)
  {
    RowsDelivered(f.dep, e.outboxId, e.deliveries, now);
  }

  lemma ExtendsKeepsRecord(es: Events, ds: Deliveries, fs: Events, gs: Deliveries, f: Frame, e: OutboxEvent, now: int)
    requires Extends(es, ds, fs, gs) && Recorded(es, ds, f, e, now)
    ensures Recorded(fs, gs, f, e, now)
  {
  }

  lemma EarlierRecord(es: Events, ds: Deliveries, fs: Events, gs: Deliveries, f: Frame, all: seq<OutboxEvent>, n: nat,
                      o: OutboxId, now: int)
    requires Extends(es, ds, fs, gs) && n <= |all|
    requires exists i :: 0 <= i < n && all[..n][i].outboxId == o && Recorded(es, ds, f, all[..n][i], now)
    ensures exists i :: 0 <= i < |all| && all[i].outboxId == o && Recorded(fs, gs, f, all[i], now)
  {
    var i :| 0 <= i < n && all[..n][i].outboxId == o && Recorded(es, ds, f, all[..n][i], now);
    ExtendsKeepsRecord(es, ds, fs, gs, f, all[i], now);
  }

  /** Whatever row a frame adds is one of its events, delivered to exactly the destinations listed with it. */
  lemma {:induction false} FrameRecords(db: Db, f: Frame, es: seq<OutboxEvent>, now: int)
    requires Rooted(db.events, db.deliveries) && (forall i :: 0 <= i < |es| ==> ValidEvent(es[i]))
    requires InsertEvents(db, f, es, now).Ok?
    ensures var b := InsertEvents(db, f, es, now).value;
      && Extends(db.events, db.deliveries, b.events, b.deliveries)
      && forall o :: o in b.events && o !in db.events ==>
           exists i :: 0 <= i < |es| && es[i].outboxId == o && Recorded(b.events, b.deliveries, f, es[i], now)
  {
    if es != [] {
      var n := |es| - 1;
      var mid := InsertEvents(db, f, es[..n], now).value;
      var b := InsertEvent(mid, f, es[n], now).value;
      FrameRecords(db, f, es[..n], now);
      InsertExtends(mid, f, es[n], now);
      forall o | o in b.events && o !in db.events
        ensures exists i :: 0 <= i < |es| && es[i].outboxId == o && Recorded(b.events, b.deliveries, f, es[i], now)
      {
        if o in mid.events {
          EarlierRecord(mid.events, mid.deliveries, b.events, b.deliveries, f, es, n, o, now);
        } else {
          assert o in b.events.Keys;
          InsertRecords(mid, f, es[n], now);
        }
      }
    }
  }

  lemma InsertOccurs(db: Db, f: Frame, e: OutboxEvent, now: int)
    requires ValidEvent(e) && InsertEvent(db, f, e, now).Ok?
    ensures OccurredAs(InsertEvent(db, f, e, now).value, f.dep, Named(e.eventId), e.message)
  {
    var b := InsertEvent(db, f, e, now).value;
    if e.outboxId in db.events || Occurred(db, f.dep, Named(e.eventId)) {
      assert b == db;
    } else {
      assert Occupies(b.events[e.outboxId], f.dep, Named(e.eventId)) && b.events[e.outboxId].message == e.message;
    }
  }

  lemma ExtendsKeepsOccurrence(a: Db, b: Db, dep: DeploymentId, id: EventId, message: Message)
    requires forall o :: o in a.events ==> o in b.events && b.events[o] == a.events[o]
    requires OccurredAs(a, dep, id, message)
    ensures OccurredAs(b, dep, id, message)
  {
    var o :| o in a.events && Occupies(a.events[o], dep, id) && a.events[o].message == message;
    assert Occupies(b.events[o], dep, id);
  }

  /** No event of an applied frame is lost: each is in the outbox with the content it was emitted with. */
  lemma {:induction false} FrameOccurs(db: Db, f: Frame, es: seq<OutboxEvent>, now: int, i: nat)
    requires Rooted(db.events, db.deliveries) && (forall i :: 0 <= i < |es| ==> ValidEvent(es[i]))
    requires InsertEvents(db, f, es, now).Ok? && i < |es|
    ensures OccurredAs(InsertEvents(db, f, es, now).value, f.dep, Named(es[i].eventId), es[i].message)
  {
    hide ValidEvent, InsertEvent, Rooted, OccurredAs;
    var n := |es| - 1;
    var mid := InsertEvents(db, f, es[..n], now).value;
    if i == n {
      InsertOccurs(mid, f, es[n], now);
    } else {
      FrameOccurs(db, f, es[..n], now, i);
      FrameRecords(db, f, es[..n], now);
      InsertExtends(mid, f, es[n], now);
      ExtendsKeepsOccurrence(mid, InsertEvents(db, f, es, now).value, f.dep, Named(es[i].eventId), es[i].message);
    }
  }

  // ---- When the events of a frame can be inserted -----------------------------------------------

  /** Some event of the frame reuses the identifier of an earlier occurrence for different content. */
  ghost predicate Reuses(db: Db, dep: DeploymentId, es: seq<OutboxEvent>) {
    exists i :: 0 <= i < |es| && Occurred(db, dep, Named(es[i].eventId)) && !OccurredAs(db, dep, Named(es[i].eventId), es[i].message)
  }

  /** The event is new to the outbox and addressed to bindings that exist. */
  ghost predicate Insertable(db: Db, dep: DeploymentId, e: OutboxEvent) {
    && e.outboxId !in db.events
    && forall d :: d in e.deliveries ==> BindingKey(dep, d.dest, d.revision) in db.bindings
  }

  lemma EarlierRows(db: Db, f: Frame, es: seq<OutboxEvent>, now: int, e: OutboxEvent)
    requires Rooted(db.events, db.deliveries) && (forall i :: 0 <= i < |es| ==> ValidEvent(es[i]))
    requires InsertEvents(db, f, es, now).Ok? && e.outboxId !in db.events
    requires forall i :: 0 <= i < |es| ==> es[i].eventId != e.eventId && es[i].outboxId != e.outboxId
    ensures var b := InsertEvents(db, f, es, now).value;
      && e.outboxId !in b.events
      && (Occurred(b, f.dep, Named(e.eventId)) ==> Occurred(db, f.dep, Named(e.eventId)))
  {
    FrameRecords(db, f, es, now);
    var b := InsertEvents(db, f, es, now).value;
    forall o | o in b.events && Occupies(b.events[o], f.dep, Named(e.eventId)) ensures o in db.events {
    }
  }

  lemma Inserts(db: Db, f: Frame, e: OutboxEvent, now: int)
    requires Rooted(db.events, db.deliveries) && ValidEvent(e) && Insertable(db, f.dep, e)
    requires Occurred(db, f.dep, Named(e.eventId)) ==> OccurredAs(db, f.dep, Named(e.eventId), e.message)
    ensures InsertEvent(db, f, e, now).Ok?
  {
  }

  /** Unless an identifier is reused, every event of the frame goes in. */
  lemma {:induction false} EventsInsert(db: Db, f: Frame, es: seq<OutboxEvent>, now: int)
    requires Rooted(db.events, db.deliveries) && DistinctEvents(es) && !Reuses(db, f.dep, es)
    requires forall i :: 0 <= i < |es| ==> ValidEvent(es[i]) && Insertable(db, f.dep, es[i])
    ensures InsertEvents(db, f, es, now).Ok?
  {
    if es != [] {
      var n := |es| - 1;
      assert !Reuses(db, f.dep, es[..n]) by {
        forall i | 0 <= i < n ensures es[..n][i] == es[i] { }
      }
      EventsInsert(db, f, es[..n], now);
      var mid := InsertEvents(db, f, es[..n], now).value;
      EarlierRows(db, f, es[..n], now, es[n]);
      FrameRecords(db, f, es[..n], now);
      InsertEventsFrame(db, f, es[..n], now);
      if Occurred(db, f.dep, Named(es[n].eventId)) {
        ExtendsKeepsOccurrence(db, mid, f.dep, Named(es[n].eventId), es[n].message);
      }
      Inserts(mid, f, es[n], now);
    }
  }

  /** A conflict means an identifier was reused; no other error is possible. */
  lemma {:induction false} EventsConflict(db: Db, f: Frame, es: seq<OutboxEvent>, now: int)
    requires Rooted(db.events, db.deliveries) && DistinctEvents(es)
    requires forall i :: 0 <= i < |es| ==> ValidEvent(es[i]) && Insertable(db, f.dep, es[i])
    requires InsertEvents(db, f, es, now).Err?
    ensures InsertEvents(db, f, es, now).error == PayloadConflict && Reuses(db, f.dep, es)
  {
    if !Reuses(db, f.dep, es) {
      EventsInsert(db, f, es, now);
    }
    var n := |es| - 1;
    if InsertEvents(db, f, es[..n], now).Err? {
      EventsConflict(db, f, es[..n], now);
    } else {
      var mid := InsertEvents(db, f, es[..n], now).value;
      EarlierRows(db, f, es[..n], now, es[n]);
      FrameRecords(db, f, es[..n], now);
      InsertEventsFrame(db, f, es[..n], now);
      assert Insertable(mid, f.dep, es[n]);
    }
  }
}
