/** internal/storage: the store as its methods change it, one write transaction at a time. Every method is
    tied to the function on tables that the other modules reason about. */
module Stores {
  import opened Schema
  import opened Transactions
  import opened Lifecycle
  import opened HealthRecords
  import opened Outbox
  import opened Retention
  import opened Integrity
  import opened Writes
  import opened History
  import opened Gains
  import Leases
  import Sweeps

  // ---- transactions.go: validation --------------------------------------------------------------------

  /** validateFrame's loop over one event's deliveries. */
  method CheckDeliveries(deliveries: seq<OutboxDelivery>) returns (ok: bool)
    ensures ok == ValidDeliveries(deliveries)
  {
    var destinations: set<nat> := {};
    for i := 0 to |deliveries|
      invariant destinations == set k | 0 <= k < i :: deliveries[k].dest
      invariant forall k :: 0 <= k < i ==> deliveries[k].dest > 0 && deliveries[k].revision > 0
      invariant forall a, b :: 0 <= a < b < i ==> deliveries[a].dest != deliveries[b].dest
    {
      if deliveries[i].dest == 0 || deliveries[i].revision < 1 || deliveries[i].dest in destinations {
        return false;
      }
      destinations := destinations + {deliveries[i].dest};
    }
    return true;
  }

  method CheckCheckpoints(checkpoints: seq<Mutation>) returns (ok: bool)
    ensures ok <==> (DistinctSources(checkpoints)
                     && forall i :: 0 <= i < |checkpoints| ==> checkpoints[i].source != "" && checkpoints[i].value != "")
  {
    var sources: set<string> := {};
    for i := 0 to |checkpoints|
      invariant sources == set k | 0 <= k < i :: checkpoints[k].source
      invariant forall a, b :: 0 <= a < b < i ==> checkpoints[a].source != checkpoints[b].source
      invariant forall k :: 0 <= k < i ==> checkpoints[k].source != "" && checkpoints[k].value != ""
    {
      if checkpoints[i].source == "" || checkpoints[i].value == "" || checkpoints[i].source in sources {
        return false;
      }
      sources := sources + {checkpoints[i].source};
    }
    return true;
  }

  method CheckEvent(e: OutboxEvent) returns (ok: bool)
    ensures ok == ValidEvent(e)
  {
    if e.outboxId == NoOutboxId || e.eventId == "" || Blank(e.message.title) {
      return false;
    }
    ok := CheckDeliveries(e.deliveries);
  }

  method CheckEvents(events: seq<OutboxEvent>) returns (ok: bool)
    ensures ok <==> DistinctEvents(events) && forall i :: 0 <= i < |events| ==> ValidEvent(events[i])
  {
    var eventIds: set<string> := {};
    var outboxIds: set<OutboxId> := {};
    for i := 0 to |events|
      invariant eventIds == set k | 0 <= k < i :: events[k].eventId
      invariant outboxIds == set k | 0 <= k < i :: events[k].outboxId
      invariant forall a, b :: 0 <= a < b < i ==> events[a].eventId != events[b].eventId && events[a].outboxId != events[b].outboxId
      invariant forall k :: 0 <= k < i ==> ValidEvent(events[k])
    {
      var valid := CheckEvent(events[i]);
      if !valid || events[i].eventId in eventIds || events[i].outboxId in outboxIds {
        return false;
      }
      eventIds, outboxIds := eventIds + {events[i].eventId}, outboxIds + {events[i].outboxId};
    }
    return true;
  }

  /** validateFrame. */
  method ValidateFrame(frame: Frame) returns (ok: bool)
    ensures ok == ValidFrame(frame)
    ensures ok <==> !Malformed(frame)
  {
    MalformedFrames(frame);
    if frame.dep == "" || frame.gen < 1 || frame.seqno < 1 || |frame.token| < 16 || frame.next == "" {
      return false;
    }
    ok := CheckCheckpoints(frame.checkpoints);
    if ok {
      ok := CheckEvents(frame.events);
    }
    ok := ok && frame.hash != NoDigest;
  }

  // ---- transactions.go: the writes of one frame -----------------------------------------------------------

  /** Column by column, what one frame leaves of everything but the outbox. */
  ghost predicate Landed(a: Db, b: Db, f: Frame) {
    var key := GenKey(f.dep, f.gen);
    && f.dep in a.deployments && key in a.generations && a.generations[key].status == Current
    && a.deployments[f.dep].activeGeneration == f.gen && a.generations[key].token == f.token
    && f.seqno == a.generations[key].lastSeq + 1 && f.base == a.deployments[f.dep].revision
    && b.deployments == a.deployments[f.dep := a.deployments[f.dep].(state := f.next, revision := f.base + 1)]
    && b.generations == a.generations[key := a.generations[key].(lastSeq := f.seqno)]
    && b.ledger == a.ledger[f.Key() := LedgerRow(f.hash, f.base, f.base + 1, Ack(f.dep, f.gen, f.seqno, f.hash, f.base + 1, Accepted))]
    && (forall k :: k in b.checkpoints <==>
          k in a.checkpoints || (k.dep == f.dep && exists i :: 0 <= i < |f.checkpoints| && f.checkpoints[i].source == k.source))
    && (forall i :: 0 <= i < |f.checkpoints| ==>
          b.checkpoints[CheckpointKey(f.dep, f.checkpoints[i].source)] == Checkpoint(f.checkpoints[i].value, f.gen, f.seqno))
    && (forall k :: k in a.checkpoints
                    && (k.dep != f.dep || forall i :: 0 <= i < |f.checkpoints| ==> f.checkpoints[i].source != k.source) ==>
          b.checkpoints[k] == a.checkpoints[k])
    && b.names == a.names && b.bindings == a.bindings && b.health == a.health && b.cursors == a.cursors
  }

  lemma AdvanceLands(db: Db, f: Frame)
    requires DistinctSources(f.checkpoints) && Refusal(db, f).None?
    ensures Landed(db, Advance(db, f), f)
  {
    var rows := CheckpointRows(f);
    forall i | 0 <= i < |f.checkpoints|
      ensures CheckpointKey(f.dep, f.checkpoints[i].source) in rows
      ensures rows[CheckpointKey(f.dep, f.checkpoints[i].source)] == Checkpoint(f.checkpoints[i].value, f.gen, f.seqno)
    {
      assert f.checkpoints[i] in f.checkpoints;
    }
  }

  lemma EffectLands(db: Db, f: Frame, now: int)
    ensures TakesEffect(db, f, now) ==> Landed(db, Apply(db, f, now).db, f)
  {
    if TakesEffect(db, f, now) {
      EffectShape(db, f, now);
      AdvanceLands(db, f);
    }
  }

  /** The rows of the first `i` checkpoints over what was there. */
  ghost function CheckpointsUpTo(checkpoints: map<CheckpointKey, Checkpoint>, f: Frame, i: nat): map<CheckpointKey, Checkpoint>
    requires DistinctSources(f.checkpoints) && i <= |f.checkpoints|
  {
    checkpoints + CheckpointRows(f.(checkpoints := f.checkpoints[..i]))
  }

  lemma CheckpointsEnds(checkpoints: map<CheckpointKey, Checkpoint>, f: Frame)
    requires DistinctSources(f.checkpoints)
    ensures CheckpointsUpTo(checkpoints, f, 0) == checkpoints
    ensures CheckpointsUpTo(checkpoints, f, |f.checkpoints|) == checkpoints + CheckpointRows(f)
  {
    assert f.checkpoints[..|f.checkpoints|] == f.checkpoints;
  }

  lemma MergePut<K, V>(a: map<K, V>, b: map<K, V>, k: K, v: V)
    ensures (a + b)[k := v] == a + b[k := v]
  {
  }

  lemma RowsOfPrefix(f: Frame, i: nat)
    requires DistinctSources(f.checkpoints) && i < |f.checkpoints|
    ensures var m := f.checkpoints[i];
      CheckpointRows(f.(checkpoints := f.checkpoints[..i + 1])) ==
      CheckpointRows(f.(checkpoints := f.checkpoints[..i]))[CheckpointKey(f.dep, m.source) := Checkpoint(m.value, f.gen, f.seqno)]
  {
    assert f.checkpoints[..i + 1] == f.checkpoints[..i] + [f.checkpoints[i]];
  }

  lemma CheckpointsNext(checkpoints: map<CheckpointKey, Checkpoint>, f: Frame, i: nat)
    requires DistinctSources(f.checkpoints) && i < |f.checkpoints|
    ensures var m := f.checkpoints[i];
      CheckpointsUpTo(checkpoints, f, i + 1) ==
      CheckpointsUpTo(checkpoints, f, i)[CheckpointKey(f.dep, m.source) := Checkpoint(m.value, f.gen, f.seqno)]
  {
    var m := f.checkpoints[i];
    RowsOfPrefix(f, i);
    MergePut(checkpoints, CheckpointRows(f.(checkpoints := f.checkpoints[..i])),
             CheckpointKey(f.dep, m.source), Checkpoint(m.value, f.gen, f.seqno));
  }

  /** The upsert loop over the frame's checkpoints. */
  method WriteCheckpoints(checkpoints: map<CheckpointKey, Checkpoint>,
                          frame: Frame) returns (written: map<CheckpointKey, Checkpoint>)
    requires DistinctSources(frame.checkpoints)
    ensures written == checkpoints + CheckpointRows(frame)
  {
    CheckpointsEnds(checkpoints, frame);
    written := checkpoints;
    for i := 0 to |frame.checkpoints|
      invariant written == CheckpointsUpTo(checkpoints, frame, i)
    {
      CheckpointsNext(checkpoints, frame, i);
      var m := frame.checkpoints[i];
      written := written[CheckpointKey(frame.dep, m.source) := Checkpoint(m.value, frame.gen, frame.seqno)];
    }
  }

  /** The rows of the first `i` deliveries over what was there. */
  ghost function DeliveriesUpTo(rows: map<DeliveryKey, Delivery>, dep: DeploymentId, o: OutboxId,
                                ds: seq<OutboxDelivery>, now: int, i: nat)
    : map<DeliveryKey, Delivery>
    requires ValidDeliveries(ds) && i <= |ds|
  {
    rows + DeliveryRows(dep, o, ds[..i], now)
  }

  lemma DeliveriesEnds(rows: map<DeliveryKey, Delivery>, dep: DeploymentId, o: OutboxId, ds: seq<OutboxDelivery>, now: int)
    requires ValidDeliveries(ds)
    ensures DeliveriesUpTo(rows, dep, o, ds, now, 0) == rows
    ensures DeliveriesUpTo(rows, dep, o, ds, now, |ds|) == rows + DeliveryRows(dep, o, ds, now)
  {
    assert ds[..|ds|] == ds;
  }

  lemma OneMoreDelivery(dep: DeploymentId, o: OutboxId, ds: seq<OutboxDelivery>, d: OutboxDelivery, now: int)
    requires ValidDeliveries(ds) && ValidDeliveries(ds + [d]) && forall e :: e in ds ==> e.dest != d.dest
    ensures DeliveryRows(dep, o, ds + [d], now) ==
      DeliveryRows(dep, o, ds, now)[DeliveryKey(o, d.dest) := Delivery(dep, d.revision, Pending, 0, now, None, None)]
    ensures DeliveryKey(o, d.dest) !in DeliveryRows(dep, o, ds, now)
  {
    assert forall e :: e in ds + [d] <==> e in ds || e == d;
  }

  lemma DeliveriesOfPrefix(dep: DeploymentId, o: OutboxId, ds: seq<OutboxDelivery>, now: int, i: nat)
    requires ValidDeliveries(ds) && i < |ds|
    ensures DeliveryRows(dep, o, ds[..i + 1], now) ==
      DeliveryRows(dep, o, ds[..i], now)[DeliveryKey(o, ds[i].dest) := Delivery(dep, ds[i].revision, Pending, 0, now, None, None)]
    ensures DeliveryKey(o, ds[i].dest) !in DeliveryRows(dep, o, ds[..i], now)
  {
    assert ds[..i + 1] == ds[..i] + [ds[i]];
    OneMoreDelivery(dep, o, ds[..i], ds[i], now);
  }

  lemma DeliveriesNext(rows: map<DeliveryKey, Delivery>, dep: DeploymentId, o: OutboxId, ds: seq<OutboxDelivery>,
                       now: int, i: nat)
    requires ValidDeliveries(ds) && i < |ds|
    ensures DeliveriesUpTo(rows, dep, o, ds, now, i + 1) ==
      DeliveriesUpTo(rows, dep, o, ds, now, i)[DeliveryKey(o, ds[i].dest) := Delivery(dep, ds[i].revision, Pending, 0, now, None, None)]
    ensures DeliveryKey(o, ds[i].dest) in DeliveriesUpTo(rows, dep, o, ds, now, i) <==> DeliveryKey(o, ds[i].dest) in rows
  {
    DeliveriesOfPrefix(dep, o, ds, now, i);
    MergePut(rows, DeliveryRows(dep, o, ds[..i], now),
             DeliveryKey(o, ds[i].dest), Delivery(dep, ds[i].revision, Pending, 0, now, None, None));
  }

  /** The insert loop over one event's deliveries, with the rules the table enforces on each row. */
  method InsertDeliveries(tx: Db, dep: DeploymentId, outbox: OutboxId, ds: seq<OutboxDelivery>, now: int)
    returns (r: Result<map<DeliveryKey, Delivery>>)
    requires ValidDeliveries(ds)
    ensures r == if Deliverable(tx, dep, outbox, ds) then Ok(tx.deliveries + DeliveryRows(dep, outbox, ds, now)) else Err(ForeignKey)
  {
    DeliveriesEnds(tx.deliveries, dep, outbox, ds, now);
    var rows := tx.deliveries;
    for i := 0 to |ds|
      invariant rows == DeliveriesUpTo(tx.deliveries, dep, outbox, ds, now, i)
      invariant forall k :: 0 <= k < i ==>
        BindingKey(dep, ds[k].dest, ds[k].revision) in tx.bindings && DeliveryKey(outbox, ds[k].dest) !in tx.deliveries
    {
      DeliveriesNext(tx.deliveries, dep, outbox, ds, now, i);
      if BindingKey(dep, ds[i].dest, ds[i].revision) !in tx.bindings || DeliveryKey(outbox, ds[i].dest) in rows {
        assert ds[i] in ds;
        return Err(ForeignKey);
      }
      rows := rows[DeliveryKey(outbox, ds[i].dest) := Delivery(dep, ds[i].revision, Pending, 0, now, None, None)];
    }
    return Ok(rows);
  }

  /** insertOutboxEvent: on a conflict the stored content decides. */
  method InsertOutboxEvent(tx: Db, frame: Frame, event: OutboxEvent, now: int) returns (r: Result<Db>)
    requires ValidEvent(event)
    ensures r == InsertEvent(tx, frame, event, now)
  {
    if event.outboxId in tx.events || Occurred(tx, frame.dep, Named(event.eventId)) {
      if OccurredAs(tx, frame.dep, Named(event.eventId), event.message) {
        return Ok(tx);
      } else if Occurred(tx, frame.dep, Named(event.eventId)) {
        return Err(PayloadConflict);
      }
      return Err(Duplicate);
    }
    var row := EventRow(NextEventRow(tx), frame.dep, Monitor, frame.gen, frame.seqno, Named(event.eventId), event.message, now);
    var written := tx.(events := tx.events[event.outboxId := row]);
    var rows := InsertDeliveries(tx, frame.dep, event.outboxId, event.deliveries, now);
    if rows.Err? {
      return Err(rows.error);
    }
    return Ok(written.(deliveries := rows.value));
  }

  /** The loop over the frame's events. */
  method InsertOutboxEvents(tx: Db, frame: Frame, now: int) returns (r: Result<Db>)
    requires forall i :: 0 <= i < |frame.events| ==> ValidEvent(frame.events[i])
    ensures r == InsertEvents(tx, frame, frame.events, now)
  {
    var written := tx;
    for i := 0 to |frame.events|
      invariant InsertEvents(tx, frame, frame.events[..i], now) == Ok(written)
    {
      InsertsNext(tx, frame, frame.events, i, written, now);
      var next := InsertOutboxEvent(written, frame, frame.events[i], now);
      if next.Err? {
        FailsEarly(tx, frame, frame.events, now, i + 1);
        return next;
      }
      written := next.value;
    }
    assert frame.events[..|frame.events|] == frame.events;
    return Ok(written);
  }

  lemma InsertsNext(tx: Db, f: Frame, es: seq<OutboxEvent>, i: nat, written: Db, now: int)
    requires i < |es| && forall k :: 0 <= k < |es| ==> ValidEvent(es[k])
    requires InsertEvents(tx, f, es[..i], now) == Ok(written)
    ensures InsertEvents(tx, f, es[..i + 1], now) == InsertEvent(written, f, es[i], now)
  {
    assert es[..i + 1][..i] == es[..i] && es[..i + 1][i] == es[i];
  }

  /** An error on a prefix is the error of the whole. */
  lemma {:induction false} FailsEarly(tx: Db, f: Frame, es: seq<OutboxEvent>, now: int, i: nat)
    requires i <= |es| && forall k :: 0 <= k < |es| ==> ValidEvent(es[k])
    requires InsertEvents(tx, f, es[..i], now).Err?
    ensures InsertEvents(tx, f, es, now) == InsertEvents(tx, f, es[..i], now)
    decreases |es| - i
  {
    if i < |es| {
      assert es[..i + 1][..i] == es[..i];
      FailsEarly(tx, f, es, now, i + 1);
    } else {
      assert es[..i] == es;
    }
  }

  // ---- Row loops of checkpoints.go and deployments.go -------------------------------------------------------

  /** The row loop of GetRuntimeDeployment. */
  method ReadCheckpoints(db: Db, dep: DeploymentId) returns (checkpoints: map<string, Json>)
    ensures checkpoints == CheckpointsOf(db, dep)
  {
    var keys := set k | k in db.checkpoints && k.dep == dep;
    var rows := keys;
    checkpoints := map[];
    while rows != {}
      invariant rows <= keys
      invariant checkpoints == map k | k in keys - rows :: k.source := db.checkpoints[k].value
      decreases rows
    {
      var row :| row in rows;
      ReadOneMore(db, dep, keys, rows, row);
      checkpoints := checkpoints[row.source := db.checkpoints[row].value];
      rows := rows - {row};
    }
    assert keys - rows == keys;
  }

  lemma ReadOneMore(db: Db, dep: DeploymentId, keys: set<CheckpointKey>, rows: set<CheckpointKey>, row: CheckpointKey)
    requires keys == (set k | k in db.checkpoints && k.dep == dep) && rows <= keys && row in rows
    ensures (map k | k in keys - (rows - {row}) :: k.source := db.checkpoints[k].value)
      == (map k | k in keys - rows :: k.source := db.checkpoints[k].value)[row.source := db.checkpoints[row].value]
  {
    assert keys - (rows - {row}) == (keys - rows) + {row};
  }

  /** The bindings once the first `i` destinations are inserted. */
  ghost function BindingsUpTo(bindings: map<BindingKey, Binding>, dep: DeploymentId, destinations: seq<Json>, i: nat)
    : map<BindingKey, Binding>
    requires i <= |destinations|
  {
    RetireBindings(bindings, dep) + NewBindings(bindings, dep, destinations[..i])
  }

  lemma BindingsEnds(bindings: map<BindingKey, Binding>, dep: DeploymentId, destinations: seq<Json>)
    ensures BindingsUpTo(bindings, dep, destinations, 0) == RetireBindings(bindings, dep)
    ensures BindingsUpTo(bindings, dep, destinations, |destinations|)
      == RetireBindings(bindings, dep) + NewBindings(bindings, dep, destinations)
  {
    assert destinations[..|destinations|] == destinations;
  }

  /** One round of Deploy's destination loop. */
  function InsertBinding(bindings: map<BindingKey, Binding>, dep: DeploymentId, index: nat,
                         config: Json): map<BindingKey, Binding> {
    bindings[NewBindingKey(bindings, dep, index) := Binding(config, false)]
  }

  /** The destination loop of Deploy: retire what is there, then insert each destination under its next revision. */
  method ReplaceBindings(bindings: map<BindingKey, Binding>, dep: DeploymentId, destinations: seq<Json>)
    returns (r: map<BindingKey, Binding>)
    ensures r == RetireBindings(bindings, dep) + NewBindings(bindings, dep, destinations)
    ensures Rebound(bindings, r, dep, destinations)
  {
    hide Rebound;
    BindingsRebound(bindings, dep, destinations);
    BindingsEnds(bindings, dep, destinations);
    r := RetireBindings(bindings, dep);
    for i := 0 to |destinations|
      invariant r == BindingsUpTo(bindings, dep, destinations, i)
    {
      NextRevision(bindings, dep, destinations, i, r);
      r := InsertBinding(r, dep, i, destinations[i]);
    }
  }

  lemma NewBindingAt(bindings: map<BindingKey, Binding>, dep: DeploymentId, destinations: seq<Json>, k: BindingKey)
    ensures k in NewBindings(bindings, dep, destinations) <==>
      1 <= k.dest <= |destinations| && k == NewBindingKey(bindings, dep, k.dest - 1)
    ensures k in NewBindings(bindings, dep, destinations) ==>
      NewBindings(bindings, dep, destinations)[k] == Binding(destinations[k.dest - 1], false)
  {
    if 1 <= k.dest <= |destinations| && k == NewBindingKey(bindings, dep, k.dest - 1) {
      var j := k.dest - 1;
      assert 0 <= j < |destinations| && NewBindingKey(bindings, dep, j) == k;
    }
  }

  lemma BindingsOfPrefix(bindings: map<BindingKey, Binding>, dep: DeploymentId, destinations: seq<Json>, i: nat, k: BindingKey)
    requires i < |destinations|
    ensures var a, b := NewBindings(bindings, dep, destinations[..i]), NewBindings(bindings, dep, destinations[..i + 1]);
      && (k in b <==> k in a || k == NewBindingKey(bindings, dep, i))
      && (k in b ==> b[k] == if k == NewBindingKey(bindings, dep, i) then Binding(destinations[i], false) else a[k])
  {
    NewBindingAt(bindings, dep, destinations[..i], k);
    NewBindingAt(bindings, dep, destinations[..i + 1], k);
  }

  /** Inserting the first destinations leaves the next one's revisions alone. */
  lemma SameLatest(bindings: map<BindingKey, Binding>, dep: DeploymentId, destinations: seq<Json>, i: nat)
    requires i < |destinations|
    ensures LatestBinding(BindingsUpTo(bindings, dep, destinations, i), dep, i + 1) == LatestBinding(bindings, dep, i + 1)
  {
    hide Highest;
    var grown := BindingsUpTo(bindings, dep, destinations, i);
    var a := set k | k in bindings && k.dep == dep && k.dest == i + 1 :: k.revision;
    var b := set k | k in grown && k.dep == dep && k.dest == i + 1 :: k.revision;
    forall x: nat ensures x in a <==> x in b {
      LaterBinding(bindings, dep, destinations, i, x);
      assert x in a <==> BindingKey(dep, i + 1, x) in bindings;
      assert x in b <==> BindingKey(dep, i + 1, x) in grown;
    }
    assert a == b;
  }

  lemma LaterBinding(bindings: map<BindingKey, Binding>, dep: DeploymentId, destinations: seq<Json>, i: nat, x: nat)
    requires i < |destinations|
    ensures BindingKey(dep, i + 1, x) in BindingsUpTo(bindings, dep, destinations, i) <==> BindingKey(dep, i + 1, x) in bindings
  {
    NewBindingAt(bindings, dep, destinations[..i], BindingKey(dep, i + 1, x));
  }

  lemma NextBindings(bindings: map<BindingKey, Binding>, dep: DeploymentId, destinations: seq<Json>, i: nat)
    requires i < |destinations|
    ensures NewBindings(bindings, dep, destinations[..i + 1])
      == NewBindings(bindings, dep, destinations[..i])[NewBindingKey(bindings, dep, i) := Binding(destinations[i], false)]
  {
    var a, b := NewBindings(bindings, dep, destinations[..i]), NewBindings(bindings, dep, destinations[..i + 1]);
    var key := NewBindingKey(bindings, dep, i);
    forall k ensures k in b <==> k in a[key := Binding(destinations[i], false)] {
      BindingsOfPrefix(bindings, dep, destinations, i, k);
    }
    forall k | k in b ensures b[k] == a[key := Binding(destinations[i], false)][k] {
      BindingsOfPrefix(bindings, dep, destinations, i, k);
    }
    SameMap(b, a[key := Binding(destinations[i], false)]);
  }

  lemma NextRevision(bindings: map<BindingKey, Binding>, dep: DeploymentId, destinations: seq<Json>, i: nat,
                     r: map<BindingKey, Binding>)
    requires i < |destinations| && r == BindingsUpTo(bindings, dep, destinations, i)
    ensures InsertBinding(r, dep, i, destinations[i]) == BindingsUpTo(bindings, dep, destinations, i + 1)
  {
    assert NewBindingKey(r, dep, i) == NewBindingKey(bindings, dep, i) by {
      SameLatest(bindings, dep, destinations, i);
    }
    NextBindings(bindings, dep, destinations, i);
    MergeStep(RetireBindings(bindings, dep), NewBindings(bindings, dep, destinations[..i]),
              NewBindings(bindings, dep, destinations[..i + 1]), NewBindingKey(bindings, dep, i), Binding(destinations[i], false), r);
  }

  lemma MergeStep<K, V>(base: map<K, V>, a: map<K, V>, b: map<K, V>, k: K, v: V, r: map<K, V>)
    requires b == a[k := v] && r == base + a
    ensures r[k := v] == base + b
  {
    MergePut(base, a, k, v);
  }

  lemma SameMap<K, V>(a: map<K, V>, b: map<K, V>)
    requires forall k :: k in a <==> k in b
    requires forall k :: k in a ==> a[k] == b[k]
    ensures a == b
  {
  }

  // ---- Row loops of health.go, outbox.go and retention.go -----------------------------------------------------

  /** The notice's identifiers are already taken. */
  predicate NoticeTaken(tx: Db, dep: DeploymentId, eventId: EventId, outbox: OutboxId) {
    outbox in tx.events
      || exists o | o in tx.events :: tx.events[o].dep == dep && tx.events[o].kind == HealthNotice && tx.events[o].eventId == eventId
  }

  /** The tables with the latch set and the notice inserted, before its deliveries. */
  function WithNotice(tx: Db, dep: DeploymentId, gen: nat, unhealthy: bool, nonce: nat, now: int): Db
    requires dep in tx.health
  {
    var row := EventRow(NextEventRow(tx), dep, HealthNotice, gen, 0, Notice(unhealthy, Random(nonce)),
                        Message(if unhealthy then "Monitor unhealthy" else "Monitor recovered", ""), now);
    tx.(health := tx.health[dep := tx.health[dep].(notified := unhealthy)], events := tx.events[Random(nonce) := row])
  }

  lemma NotifyIs(tx: Db, dep: DeploymentId, gen: nat, unhealthy: bool, nonce: nat, now: int)
    requires dep in tx.health && forall k :: k in tx.deliveries ==> k.outbox in tx.events
    ensures NoticeTaken(tx, dep, Notice(unhealthy, Random(nonce)), Random(nonce)) ==>
      Notify(tx, dep, gen, unhealthy, nonce, now) == Err(Duplicate)
    ensures !DistinctDestinations(ActiveBindings(tx, dep)) ==> Notify(tx, dep, gen, unhealthy, nonce, now) == Err(Duplicate)
    ensures !NoticeTaken(tx, dep, Notice(unhealthy, Random(nonce)), Random(nonce)) && DistinctDestinations(ActiveBindings(tx, dep)) ==>
      Notify(tx, dep, gen, unhealthy, nonce, now) == Ok(WithNotice(tx, dep, gen, unhealthy, nonce, now).(
        deliveries := tx.deliveries + NoticeDeliveries(dep, Random(nonce), ActiveBindings(tx, dep), now)))
  {
  }

  /** enqueueHealthNotification. */
  method EnqueueHealthNotification(tx: Db, dep: DeploymentId, gen: nat, unhealthy: bool, nonce: nat,
                                   now: int) returns (r: Result<Db>)
    requires dep in tx.health && BindingsOk(tx.bindings) && forall k :: k in tx.deliveries ==> k.outbox in tx.events
    ensures r == Notify(tx, dep, gen, unhealthy, nonce, now)
    ensures r.Ok? <==> Random(nonce) !in tx.events && !NoticeSent(tx, dep, unhealthy, nonce)
    ensures r.Ok? ==> Announced(tx, r.value, dep, unhealthy, nonce, now) && r.value.events[Random(nonce)].gen == gen
    ensures r.Ok? ==> r.value.health == tx.health[dep := tx.health[dep].(notified := unhealthy)]
  {
    NotifyMeans(tx, dep, gen, unhealthy, nonce, now);
    NotifyIs(tx, dep, gen, unhealthy, nonce, now);
    if NoticeTaken(tx, dep, Notice(unhealthy, Random(nonce)), Random(nonce)) {
      return Err(Duplicate);
    }
    var written := WithNotice(tx, dep, gen, unhealthy, nonce, now);
    if !DistinctDestinations(ActiveBindings(tx, dep)) {
      return Err(Duplicate);
    }
    written := written.(deliveries := written.deliveries + NoticeDeliveries(dep, Random(nonce), ActiveBindings(tx, dep), now));
    return Ok(written);
  }

  /** maintenanceIDs over the rows of one outbox page. */
  method ReadCandidates(db: Db, ids: seq<nat>, now: int) returns (candidates: seq<Candidate>)
    ensures candidates == seq(|ids|, i requires 0 <= i < |ids| => Candidate(ids[i], EligibleRow(db, ids[i], now)))
  {
    candidates := [];
    for i := 0 to |ids|
      invariant |candidates| == i
      invariant forall k :: 0 <= k < i ==> candidates[k] == Candidate(ids[k], EligibleRow(db, ids[k], now))
    {
      candidates := candidates + [Candidate(ids[i], EligibleRow(db, ids[i], now))];
    }
  }

  /** The walk over one batch of generation rows: stop at the first aged one. */
  method WalkGenerations(db: Db, rows: seq<nat>, now: int) returns (i: nat, found: Option<GenKey>)
    ensures found.Some? ==> FirstAged(db, rows, i, found.value, now)
    ensures found.None? ==> i == |rows| && NoneAged(db, rows, now)
  {
    i := 0;
    while i < |rows|
      invariant i <= |rows|
      invariant forall j, k :: 0 <= j < i ==> !AgedRow(db, rows[j], k, now)
    {
      if key :| key in db.generations && AgedRow(db, rows[i], key, now) {
        return i, Some(key);
      }
      i := i + 1;
    }
    return i, None;
  }

  /** The delete loop of a slice. The time budget is checked after each candidate, so at least one is taken. */
  method DeleteCandidates(db: Db, name: SweepName, p: Page, now: int, budget: nat) returns (swept: Db, taken: nat)
    ensures taken == if p.ids == [] then 0 else if 1 <= budget <= |p.ids| then budget else if budget == 0 then 1 else |p.ids|
    ensures taken <= |p.ids| && swept == DeleteAll(db, name, p, taken, now)
  {
    swept, taken := db, 0;
    while taken < |p.ids|
      invariant taken <= |p.ids| && (taken == 0 || taken < budget)
      invariant swept == DeleteAll(db, name, p, taken, now)
    {
      swept := DeleteCandidate(swept, name, p, p.ids[taken], now);
      taken := taken + 1;
      if taken >= budget {
        break;
      }
    }
  }

  /** The result loop of ClaimOutbox. */
  method ListClaimed(keys: set<DeliveryKey>) returns (out: seq<DeliveryKey>)
    ensures (forall k :: k in out <==> k in keys) && |out| == |keys|
  {
    var rest := keys;
    out := [];
    while rest != {}
      invariant rest <= keys && |out| == |keys - rest|
      invariant forall k :: k in out <==> k in keys - rest
      decreases rest
    {
      var k :| k in rest;
      assert keys - (rest - {k}) == (keys - rest) + {k};
      out := out + [k];
      rest := rest - {k};
    }
    assert keys - rest == keys;
  }

  lemma NoAgedKey(db: Db, rowid: nat, now: int)
    requires forall key :: !(key in db.generations && AgedRow(db, rowid, key, now))
    ensures forall key :: !AgedRow(db, rowid, key, now)
  {
  }

  // ---- Which rows a claim takes ---------------------------------------------------------------------------------

  /** There is always a set of due rows as the claim's ORDER BY and LIMIT select it. */
  lemma {:induction false} SelectionExists(db: Db, now: int, limit: nat)
    ensures exists chosen :: Selects(db, now, limit, chosen)
  {
    if limit == 0 {
      assert Selects(db, now, 0, {});
    } else {
      SelectionExists(db, now, limit - 1);
      var fewer :| Selects(db, now, limit - 1, fewer);
      var rest := DueRows(db, now) - fewer;
      if rest == {} {
        assert fewer == DueRows(db, now);
        assert Selects(db, now, limit, fewer);
      } else {
        SoonestExists(db, rest);
        var k :| k in rest && forall j :: j in rest ==> db.deliveries[k].nextAttempt <= db.deliveries[j].nextAttempt;
        SelectsOneMore(db, now, limit, fewer, k);
      }
    }
  }

  lemma SelectsOneMore(db: Db, now: int, limit: nat, fewer: set<DeliveryKey>, k: DeliveryKey)
    requires limit > 0 && Selects(db, now, limit - 1, fewer) && k in DueRows(db, now) - fewer
    requires forall j :: j in DueRows(db, now) - fewer ==> db.deliveries[k].nextAttempt <= db.deliveries[j].nextAttempt
    ensures Selects(db, now, limit, fewer + {k})
  {
    assert fewer != DueRows(db, now) && |fewer + {k}| == |fewer| + 1;
  }

  lemma {:induction false} SoonestExists(db: Db, keys: set<DeliveryKey>)
    requires keys != {} && keys <= db.deliveries.Keys
    ensures exists k :: k in keys && forall j :: j in keys ==> db.deliveries[k].nextAttempt <= db.deliveries[j].nextAttempt
  {
    var a :| a in keys;
    var rest := keys - {a};
    if rest == {} {
      assert keys == {a};
    } else {
      SoonestExists(db, rest);
      var b :| b in rest && forall j :: j in rest ==> db.deliveries[b].nextAttempt <= db.deliveries[j].nextAttempt;
      var k := if db.deliveries[a].nextAttempt <= db.deliveries[b].nextAttempt then a else b;
      assert forall j :: j in keys ==> j == a || j in rest;
      assert k in keys && forall j :: j in keys ==> db.deliveries[k].nextAttempt <= db.deliveries[j].nextAttempt;
    }
  }

  /** What a claim takes at `now`, column by column: waiting rows whose time has come and sending rows whose lease is
      over, soonest first, and all of them if it takes fewer than it may. */
  ghost predicate ClaimsSoonest(a: Db, now: int, limit: int, chosen: set<DeliveryKey>) {
    && (forall k :: k in chosen ==>
          && k in a.deliveries
          && var d := a.deliveries[k];
             || (d.status == Pending && d.nextAttempt <= now)
             || (d.status == Sending && d.leaseExpires.Some? && d.leaseExpires.value <= now))
    && |chosen| <= limit
    && (forall k :: k in a.deliveries && k !in chosen ==>
          var d := a.deliveries[k];
          ((d.status == Pending && d.nextAttempt <= now)
           || (d.status == Sending && d.leaseExpires.Some? && d.leaseExpires.value <= now)) ==>
            |chosen| == limit && forall j :: j in chosen ==> a.deliveries[j].nextAttempt <= d.nextAttempt)
  }

  /** Only the chosen rows move, and they move to one holder and one deadline. */
  ghost predicate LeasesOnly(a: Db, b: Db, owner: Owner, until: int, chosen: set<DeliveryKey>) {
    && b == a.(deliveries := b.deliveries) && b.deliveries.Keys == a.deliveries.Keys
    && forall k :: k in a.deliveries ==>
         b.deliveries[k] == if k !in chosen then a.deliveries[k] else
                            a.deliveries[k].(status := Sending, owner := Some(owner), leaseExpires := Some(until))
  }

  /** A row that is leased beyond `now` keeps its holder and its deadline. */
  ghost predicate StillLeased(a: Db, b: Db, now: int) {
    forall k :: k in a.deliveries && a.deliveries[k].status == Sending
                && a.deliveries[k].leaseExpires.Some? && a.deliveries[k].leaseExpires.value > now ==>
      k in b.deliveries && b.deliveries[k] == a.deliveries[k]
  }

  lemma SelectsSoonest(db: Db, now: int, limit: nat, chosen: set<DeliveryKey>)
    requires Selects(db, now, limit, chosen)
    ensures ClaimsSoonest(db, now, limit, chosen) && chosen <= db.deliveries.Keys
  {
    forall k | k in chosen ensures k in db.deliveries && Due(db.deliveries[k], now) {
      assert k in DueRows(db, now);
    }
    forall k | k in db.deliveries && k !in chosen && Due(db.deliveries[k], now)
      ensures |chosen| == limit && forall j :: j in chosen ==> db.deliveries[j].nextAttempt <= db.deliveries[k].nextAttempt
    {
      assert k in DueRows(db, now) - chosen;
    }
  }

  lemma LeaseMoves(db: Db, owner: Owner, until: int, chosen: set<DeliveryKey>)
    ensures LeasesOnly(db, Lease(db, owner, until, chosen), owner, until, chosen)
  {
    assert Lease(db, owner, until, chosen).deliveries.Keys == db.deliveries.Keys;
  }

  lemma LeaseSpares(a: Db, b: Db, owner: Owner, now: int, until: int, limit: int, chosen: set<DeliveryKey>)
    requires ClaimsSoonest(a, now, limit, chosen) && LeasesOnly(a, b, owner, until, chosen)
    ensures StillLeased(a, b, now)
  {
  }

  lemma NothingMoves(db: Db, owner: Owner, now: int, until: int)
    ensures LeasesOnly(db, db, owner, until, {}) && StillLeased(db, db, now)
  {
  }

  // ---- The statements of single transactions ----------------------------------------------------------------

  /** The tables a transaction is about to commit, or why it does not. */
  function Written<R>(o: Outcome<R>): Result<Db> {
    match o.reply case Ok(_) => Ok(o.db) case Err(error) => Err(error)
  }

  /** The updates of MarkGenerationReady. */
  method ReadyRows(db: Db, dep: DeploymentId, gen: nat, now: int) returns (r: Result<Db>)
    ensures r == Written(MarkReady(db, dep, gen, now))
  {
    if dep == "" || gen < 1 {
      return Err(InvalidInput);
    }
    var tx, key := db, GenKey(dep, gen);
    if key !in tx.generations || tx.generations[key].status != Current || tx.generations[key].readyAt.Some? {
      return Err(Error.Fenced);
    }
    tx := tx.(generations := tx.generations[key := tx.generations[key].(readyAt := Some(now))]);
    if dep !in tx.health || tx.health[dep].gen != gen {
      return Err(Error.Fenced);
    }
    tx := tx.(health := tx.health[dep := tx.health[dep].(status := Starting)]);
    return Ok(tx);
  }

  /** The updates of MarkGenerationStopped. */
  method StoppedRows(db: Db, dep: DeploymentId, gen: nat, failed: bool, now: int) returns (r: Result<Db>)
    ensures r == Written(MarkStopped(db, dep, gen, failed, now))
  {
    if dep == "" || gen < 1 {
      return Err(InvalidInput);
    }
    var tx, key := db, GenKey(dep, gen);
    if key !in tx.generations {
      return Err(NotFound);
    }
    var g := tx.generations[key];
    tx := tx.(generations := tx.generations[key := g.(status := Retired, retiredAt := Coalesce(g.retiredAt, now))]);
    if dep in tx.health && tx.health[dep].gen == gen && !failed {
      tx := tx.(health := tx.health[dep := tx.health[dep].(status := Stopped)]);
    }
    return Ok(tx);
  }

  /** The updates of ArchiveDeployment. */
  method ArchiveRows(db: Db, id: DeploymentId, now: int) returns (r: Result<Db>)
    ensures r == Written(Archive(db, id, now))
  {
    var tx := db;
    if id !in tx.deployments || tx.deployments[id].status != Inactive {
      return Err(InvalidStatus);
    }
    tx := tx.(deployments := tx.deployments[id := tx.deployments[id].(status := Archived, expiresAt := None)]);
    tx := tx.(generations := RetireAll(tx.generations, {id}, now));
    return Ok(tx);
  }

  /** The updates of ReplaceState. */
  method EditRows(db: Db, id: DeploymentId, base: nat, state: Json, now: int) returns (r: Result<Db>)
    ensures r == Written(ReplaceState(db, id, base, state, now))
  {
    if state == "" {
      return Err(InvalidInput);
    }
    var tx := db;
    if id !in tx.deployments {
      return Err(NotFound);
    }
    var d := tx.deployments[id];
    if d.status == Archived {
      return Err(InvalidStatus);
    }
    if d.revision != base {
      return Err(StateConflict);
    }
    tx := tx.(deployments := tx.deployments[id := d.(state := state, revision := base + 1, activeGeneration := 0)]);
    tx := tx.(generations := RetireAll(tx.generations, {id}, now));
    tx := EnsureHealth(tx, id, 0, if d.status == Active then Starting else Stopped);
    return Ok(tx);
  }

  /** The set updates of RecoverGenerations. */
  method RecoveryRows(db: Db, now: int) returns (tx: Db)
    ensures tx == Recover(db, now)
  {
    var generations := map k | k in db.generations ::
      if db.generations[k].status == Current
      then db.generations[k].(status := Retired, retiredAt := Coalesce(db.generations[k].retiredAt, now))
      else db.generations[k];
    var health := map id | id in db.health ::
      if id in db.deployments && db.deployments[id].status == Active
      then db.health[id].(gen := 0, status := Starting) else db.health[id];
    var deployments := map id | id in db.deployments ::
      if db.deployments[id].status == Active then db.deployments[id].(activeGeneration := 0) else db.deployments[id];
    tx := db.(generations := generations, health := health, deployments := deployments);
  }

  /** The updates of ActivateGeneration: the compared columns, the fence, the next number. */
  method ActivateRows(db: Db, s: Snapshot, fingerprint: string, token: Token, now: int) returns (r: Result<Db>, next: nat)
    ensures r == Written(Activate(db, s, fingerprint, token, now))
    ensures r.Ok? ==> Activate(db, s, fingerprint, token, now).reply == Ok(next)
  {
    next := 0;
    if s.dep == "" || s.artifact == "" || s.configRevision < 1 || fingerprint == "" {
      return Err(InvalidInput), next;
    }
    if s.dep !in db.deployments {
      return Err(NotFound), next;
    }
    var d := db.deployments[s.dep];
    if d.status != Active || Expired(d, now) {
      return Err(NotFound), next;
    }
    if d.configRevision != s.configRevision {
      return Err(SnapshotChanged), next;
    }
    if d.artifact != s.artifact || d.revision != s.revision || d.activeGeneration != s.activeGeneration {
      return Err(SnapshotChanged), next;
    }
    next := LatestGeneration(db, s.dep) + 1;
    var generations := db.generations;
    if d.activeGeneration > 0 {
      var prior := GenKey(s.dep, d.activeGeneration);
      if prior in generations && generations[prior].status == Current {
        generations := generations[prior := generations[prior].(status := Retired, retiredAt := Some(now))];
      }
    }
    generations := generations[GenKey(s.dep, next) :=
      Generation(NextGenerationRow(db), token, s.artifact, s.configRevision, fingerprint, Current, 0, None, None)];
    var tx := db.(generations := generations, deployments := db.deployments[s.dep := d.(activeGeneration := next)]);
    return Ok(EnsureHealth(tx, s.dep, next, Starting)), next;
  }

  /** The row, the fence and then the destinations one by one. */
  method DeployRows(db: Db, newId: DeploymentId, i: DeployInput, now: int) returns (r: Result<Db>, id: DeploymentId)
    ensures r == Written(Deploy(db, newId, i, now))
    ensures r.Ok? ==> Deploy(db, newId, i, now).reply == Ok(id)
  {
    id := newId;
    if !ValidDeploy(i) {
      return Err(InvalidInput), id;
    }
    if i.name in db.names {
      id := db.names[i.name];
    }
    var row := DeployRow(db, id, i);
    if row.Err? {
      return Err(row.error), id;
    }
    var named := db.(deployments := db.deployments[id := row.value], names := db.names[i.name := id]);
    var tx := EnsureHealth(named, id, 0, Starting);
    var generations := RetireAll(db.generations, {id}, now);
    var bindings := ReplaceBindings(db.bindings, id, i.destinations);
    return Ok(tx.(generations := generations, bindings := bindings)), id;
  }

  /** The transaction of DeactivateDueDeployments, which rechecks who is due. */
  method ExpireRows(db: Db, due: set<DeploymentId>, now: int) returns (tx: Db)
    requires due == set id | id in db.deployments && db.deployments[id].status == Active && Expired(db.deployments[id], now)
    ensures tx == Expire(db, now).db
  {
    var generations := RetireAll(db.generations, due, now);
    var deployments := map id | id in db.deployments ::
      if id in due then db.deployments[id].(status := Inactive, activeGeneration := 0) else db.deployments[id];
    var health := map id | id in db.health ::
      if id in deployments && deployments[id].status == Inactive && Expired(deployments[id], now)
      then db.health[id].(gen := 0, status := Stopped) else db.health[id];
    ExpiredHealth(db, due, now);
    assert deployments == Expire(db, now).db.deployments;
    tx := db.(generations := generations, deployments := deployments, health := health);
  }

  /** The update sees the deployments it has just paused, and so decides as it would have before. */
  lemma ExpiredHealth(db: Db, due: set<DeploymentId>, now: int)
    requires due == set id | id in db.deployments && db.deployments[id].status == Active && Expired(db.deployments[id], now)
    ensures var ds := Expire(db, now).db.deployments;
      Expire(db, now).db.health == map id | id in db.health ::
        if id in ds && ds[id].status == Inactive && Expired(ds[id], now) then db.health[id].(gen := 0, status := Stopped) else db.health[id]
  {
  }

  /** The checks of PurgeDeploymentSafe and the delete that cascades. */
  method PurgeRows(db: Db, id: DeploymentId, force: bool) returns (r: Result<Db>)
    ensures r == Written(Purge(db, id, force))
  {
    if !force && exists k | k in db.deliveries :: k.outbox in db.events && db.events[k.outbox].dep == id && Queued(db.deliveries[k]) {
      return Err(QueuedDeliveries);
    }
    if id !in db.deployments || db.deployments[id].status != Archived {
      return Err(InvalidStatus);
    }
    return Ok(DeleteDeployment(db, id));
  }

  /** The updates of ClearCheckpoints, and how many rows went. */
  method ClearRows(db: Db, id: DeploymentId, now: int) returns (r: Result<Db>, count: nat)
    ensures r == Written(ClearCheckpoints(db, id, now))
    ensures r.Ok? ==> ClearCheckpoints(db, id, now).reply == Ok(count)
  {
    count := 0;
    if id == "" {
      return Err(InvalidInput), count;
    }
    var tx := db;
    if id !in tx.deployments {
      return Err(NotFound), count;
    }
    if tx.deployments[id].status != Inactive {
      return Err(InvalidStatus), count;
    }
    tx := tx.(deployments := tx.deployments[id := tx.deployments[id].(activeGeneration := 0)]);
    tx := tx.(generations := RetireAll(tx.generations, {id}, now));
    tx := EnsureHealth(tx, id, 0, Stopped);
    count := |set k | k in tx.checkpoints && k.dep == id|;
    tx := tx.(checkpoints := map k | k in tx.checkpoints && k.dep != id :: tx.checkpoints[k]);
    return Ok(tx), count;
  }

  /** The counted failure RecordRun and recordOperationalFailure share. */
  method FailureRows(db: Db, dep: DeploymentId, gen: nat, nonce: nat, now: int) returns (r: Result<Db>, t: Transition)
    requires Watched(db, dep) && Inv(db)
    ensures Told(CountFailure(db, dep, gen, nonce, now), r, t)
  {
    Queues(db);
    var tx, h := db, db.health[dep];
    var failures := h.failures + 1;
    var threshold := tx.deployments[dep].threshold;
    tx := tx.(health := tx.health[dep := h.(gen := gen, status := Degraded(failures, threshold), failures := failures)]);
    if !h.notified && failures >= threshold {
      r := EnqueueHealthNotification(tx, dep, gen, true, nonce, now);
      return r, BecameUnhealthy;
    }
    return Ok(tx), Quiet;
  }

  /** The success RecordRun and MarkGenerationStable share. */
  method SuccessRows(db: Db, dep: DeploymentId, gen: nat, nonce: nat, now: int) returns (r: Result<Db>, t: Transition)
    requires Watched(db, dep) && Inv(db)
    ensures Told(ClearFailures(db, dep, gen, nonce, now), r, t)
  {
    Queues(db);
    var tx, h := db, db.health[dep];
    tx := tx.(health := tx.health[dep := h.(gen := gen, status := Healthy, failures := 0)]);
    if h.notified {
      r := EnqueueHealthNotification(tx, dep, gen, false, nonce, now);
      return r, Recovered;
    }
    return Ok(tx), Quiet;
  }

  /** What a health transaction is about to commit, and what it will answer. */
  predicate Told(o: Outcome<Transition>, r: Result<Db>, t: Transition) {
    r == Written(o) && (r.Ok? ==> o.reply == Ok(t))
  }

  /** The transaction of RecordRun. */
  method RunRows(db: Db, dep: DeploymentId, gen: nat, status: RunStatus, nonce: nat, now: int) returns (r: Result<Db>,
                 t: Transition)
    requires Inv(db)
    ensures Told(RecordRun(db, dep, gen, status, nonce, now), r, t)
  {
    if dep == "" || gen < 1 {
      return Err(InvalidInput), Quiet;
    }
    if !Watched(db, dep) || db.deployments[dep].activeGeneration != gen || db.health[dep].gen != gen {
      return Err(Error.Fenced), Quiet;
    }
    match status
    case Deferred =>
      var h := db.health[dep];
      var kept := h.status;
      if h.failures >= db.deployments[dep].threshold {
        kept := Unhealthy;
      } else if h.failures > 0 {
        kept := Failing;
      }
      return Ok(db.(health := db.health[dep := h.(status := kept)])), Quiet;
    case Succeeded => r, t := SuccessRows(db, dep, gen, nonce, now);
    case Failed => r, t := FailureRows(db, dep, gen, nonce, now);
  }

  /** The transaction of MarkGenerationStable. */
  method StableRows(db: Db, dep: DeploymentId, gen: nat, nonce: nat, now: int) returns (r: Result<Db>, t: Transition)
    requires Inv(db)
    ensures Told(MarkStable(db, dep, gen, nonce, now), r, t)
  {
    if !Watched(db, dep) || db.deployments[dep].activeGeneration != gen {
      return Err(Error.Fenced), Quiet;
    }
    if db.health[dep].gen != gen || db.health[dep].status != Starting {
      return Err(Error.Fenced), Quiet;
    }
    r, t := SuccessRows(db, dep, gen, nonce, now);
  }

  /** The transaction of recordOperationalFailure. */
  method OperationalRows(db: Db, dep: DeploymentId, gen: Option<nat>, nonce: nat, now: int) returns (r: Result<Db>,
                         t: Transition)
    requires Inv(db)
    ensures Told(RecordFailure(db, dep, gen, nonce, now), r, t)
  {
    if dep == "" || gen == Some(0) {
      return Err(InvalidInput), Quiet;
    }
    if !Watched(db, dep) {
      return Err(Error.Fenced), Quiet;
    }
    if gen.Some? && db.deployments[dep].activeGeneration != gen.value {
      return Err(Error.Fenced), Quiet;
    }
    r, t := FailureRows(db, dep, if gen.Some? then db.deployments[dep].activeGeneration else 0, nonce, now);
  }

  /** The guarded update that ends a lease. */
  method SettleRows(db: Db, k: DeliveryKey, owner: Owner, status: DeliveryStatus, counted: nat,
                    next: Option<int>) returns (r: Result<Db>)
    ensures r == Written(Settle(db, k, owner, status, counted, next))
  {
    if k !in db.deliveries || db.deliveries[k].status != Sending || db.deliveries[k].owner != Some(owner) {
      return Err(LeaseLost);
    }
    var d := db.deliveries[k];
    if next.Some? {
      d := d.(nextAttempt := next.value);
    }
    d := d.(status := status, attempts := d.attempts + counted, owner := None, leaseExpires := None);
    return Ok(db.(deliveries := db.deliveries[k := d]));
  }

  /** The guarded update of RetryDeadDelivery. */
  method RetryRows(db: Db, k: DeliveryKey, now: int) returns (r: Result<Db>)
    ensures r == Written(RetryDead(db, k, now))
  {
    if k !in db.deliveries || db.deliveries[k].status != Dead {
      return Err(NotFound);
    }
    return Ok(db.(deliveries := db.deliveries[k := db.deliveries[k].(status := Pending, attempts := 0, nextAttempt := now)]));
  }

  /** The lease of the selected rows, and the read that hands them back. */
  method LeaseRows(db: Db, owner: Owner, expires: int, rows: set<DeliveryKey>) returns (tx: Db, out: seq<DeliveryKey>)
    ensures tx == Lease(db, owner, expires, rows)
    ensures (forall k :: k in out <==> k in Claimed(tx, owner, expires)) && |out| == |Claimed(tx, owner, expires)|
  {
    tx := db.(deliveries := map k | k in db.deliveries ::
      if k in rows then db.deliveries[k].(status := Sending, owner := Some(owner), leaseExpires := Some(expires)) else db.deliveries[k]);
    out := ListClaimed(Claimed(tx, owner, expires));
  }

  /** The write transaction of prune: own the cursor, recheck and delete within the budget, move the cursor. */
  method SweepRows(db: Db, name: SweepName, p: Page, now: int, budget: nat) returns (tx: Db, r: Result<Sweep>, ghost taken: nat)
    ensures taken <= |p.ids| && (p.ids != [] ==> taken > 0)
    ensures tx == Prune(db, name, p, taken, now).db && r == Prune(db, name, p, taken, now).reply
  {
    taken := if p.ids == [] then 0 else 1;
    tx := db;
    if p.before.through == 0 && p.before.nextSweep > now {
      return tx, Ok(Idle(p.before.nextSweep)), taken;
    }
    if CursorOf(db, name) != p.before {
      return tx, Ok(Lost), taken;
    }
    var swept, scanned := DeleteCandidates(db, name, p, now, budget);
    taken := scanned;
    var next := p.next;
    if scanned > 0 {
      next := if name == OutboxSweep then next.(after := p.ids[scanned - 1].id) else next.(seqno := p.ids[scanned - 1].id);
    }
    if p.complete {
      next := Cursor(0, 0, now + HOUR, 0, 0);
    }
    tx := swept.(cursors := swept.cursors[name := next]);
    return tx, Ok(Advanced(scanned, !p.complete)), taken;
  }

  // ---- The store ------------------------------------------------------------------------------------------

  /** How the commit of a write transaction ends. A commit error leaves the caller not knowing which. */
  datatype Ending = Committed | RolledBack | DurableAnyway

  class Store {
    /** The committed tables. A write transaction works on a copy and publishes it when it commits. */
    var db: Db
    /** The run of writes that led here: the identifiers and generations it used up, and the frames it applied. */
    ghost var history: System

    ghost predicate Valid()
      reads this
    {
      history.db == db && SystemOk(history)
    }

    constructor ()
      ensures Valid() && history == START
    {
      db, history := EMPTY_DB, START;
      StartOk();
    }

    /** The copy becomes the tables, and the run is one write longer. */
    method Commit(tx: Db, ghost w: Write)
      requires Valid() && Allowed(history, w) && tx == Perform(db, w)
      modifies this
      ensures Valid() && db == tx && history == Next(old(history), w)
    {
      NextKeeps(history, w);
      db, history := tx, Next(history, w);
    }

    // ---- transactions.go ------------------------------------------------------------------------------------

    /** lookupTransaction. */
    method LookupTransaction(frame: Frame) returns (found: Option<Result<Ack>>)
      requires Valid()
      ensures found == Lookup(db, frame)
      ensures found.None? ==> frame.Key() !in history.applied || !IsCurrent(db, GenKey(frame.dep, frame.gen))
      ensures found.Some? ==>
        && frame.Key() in history.applied
        && found.value
           == if history.applied[frame.Key()].hash == frame.hash then Ok(AckFor(history.applied[frame.Key()])) else Err(PayloadConflict)
    {
      LookupMeans(history, frame);
      if frame.Key() !in db.ledger {
        return None;
      }
      var row := db.ledger[frame.Key()];
      if row.hash != frame.hash {
        return Some(Err(PayloadConflict));
      }
      return Some(Ok(row.ack));
    }

    /** The fence, sequence and revision checks that follow a ledger miss. */
    method CheckFence(frame: Frame) returns (refused: Option<Error>)
      requires Valid()
      ensures refused == Refusal(db, frame)
      ensures refused.Some? && FromCurrent(db, frame) ==> OutOfTurn(db, frame, refused.value)
      ensures refused.None? <==> Admissible(db, frame)
      ensures refused.None? ==> frame.Key() !in history.applied
      ensures refused == Some(Error.Fenced) <==>
        !(IsCurrent(db, GenKey(frame.dep, frame.gen)) && db.generations[GenKey(frame.dep, frame.gen)].token == frame.token)
    {
      RefusalMeans(history, frame);
      if frame.dep !in db.deployments {
        return Some(Error.Fenced);
      }
      var d := db.deployments[frame.dep];
      var key := GenKey(frame.dep, d.activeGeneration);
      if key !in db.generations || db.generations[key].status != Current {
        return Some(Error.Fenced);
      }
      var g := db.generations[key];
      if d.activeGeneration != frame.gen || g.token != frame.token {
        return Some(Error.Fenced);
      }
      if frame.seqno != g.lastSeq + 1 {
        return Some(if frame.seqno <= g.lastSeq then MissingSequence else SequenceConflict);
      }
      if frame.base != d.revision {
        return Some(StateConflict);
      }
      return None;
    }

    /** The frame's writes in the order the transaction makes them. */
    method WriteFrame(frame: Frame, now: int) returns (r: Result<Db>)
      requires ValidFrame(frame) && Refusal(db, frame) == None
      ensures r == InsertEvents(Advance(db, frame), frame, frame.events, now)
    {
      var tx := db;
      var d := tx.deployments[frame.dep];
      var result := d.revision + 1;
      tx := tx.(deployments := tx.deployments[frame.dep := d.(state := frame.next, revision := result)]);
      var key := GenKey(frame.dep, frame.gen);
      tx := tx.(generations := tx.generations[key := tx.generations[key].(lastSeq := frame.seqno)]);
      var ack := Ack(frame.dep, frame.gen, frame.seqno, frame.hash, result, Accepted);
      tx := tx.(ledger := tx.ledger[frame.Key() := LedgerRow(frame.hash, frame.base, result, ack)]);
      var checkpoints := WriteCheckpoints(tx.checkpoints, frame);
      tx := tx.(checkpoints := checkpoints);
      assert tx == Advance(db, frame);
      r := InsertOutboxEvents(tx, frame, now);
    }

    /** ApplyTransaction. After a commit error the ledger is asked, on another connection, what became durable. */
    method ApplyTransaction(frame: Frame, now: int, ending: Ending, readable: bool) returns (r: Result<Ack>)
      requires Valid()
      modifies this
      ensures Valid()
      ensures history == if TakesEffect(old(db), frame, now) && ending != RolledBack then Next(old(history), ApplyFrame(frame, now)) else old(history)
      ensures db == if TakesEffect(old(db), frame, now) && ending != RolledBack then Apply(old(db), frame, now).db else old(db)
      ensures !TakesEffect(old(db), frame, now) || ending == Committed ==> r == Apply(old(db), frame, now).reply
      ensures TakesEffect(old(db), frame, now) && ending == DurableAnyway ==>
        r == if readable then Apply(old(db), frame, now).reply else Err(CommitFailed)
      ensures TakesEffect(old(db), frame, now) && ending == RolledBack ==> r == Err(CommitFailed)
      ensures r == Err(InvalidInput) <==> Malformed(frame)
      ensures r.Ok? && frame.Key() in old(db).ledger ==>
        var row := old(db).ledger[frame.Key()]; db == old(db) && row.hash == frame.hash && r.value == row.ack
      ensures r.Ok? && frame.Key() !in old(db).ledger ==> Landed(old(db), db, frame) && r.value == db.ledger[frame.Key()].ack
    {
      hide Landed;
      InvalidMeansMalformed(db, frame, now);
      EffectLands(db, frame, now);
      var valid := ValidateFrame(frame);
      if !valid {
        return Err(InvalidInput);
      }
      var found := LookupTransaction(frame);
      if found.Some? {
        return found.value;
      }
      var refused := CheckFence(frame);
      if refused.Some? {
        return Err(refused.value);
      }
      var tx := WriteFrame(frame, now);
      if tx.Err? {
        return Err(tx.error);
      }
      match ending
      case Committed =>
        Commit(tx.value, ApplyFrame(frame, now));
        return Ok(AckFor(frame));
      case RolledBack =>
        return Err(CommitFailed);
      case DurableAnyway =>
        Commit(tx.value, ApplyFrame(frame, now));
        Durable(old(db), frame, now);
        if !readable {
          return Err(CommitFailed);
        }
        found := LookupTransaction(frame);
        return found.value;
    }

    // ---- generations.go and checkpoints.go ------------------------------------------------------------------

    /** GetRuntimeDeployment: one read snapshot, its checkpoints row by row. */
    method GetRuntimeDeployment(dep: DeploymentId) returns (r: Result<Snapshot>)
      ensures r == ReadSnapshot(db, dep)
      ensures if dep !in db.deployments then r == Err(NotFound) else r.Ok? && Unchanged(db, r.value) && r.value.dep == dep
      ensures r.Ok? ==> r.value.state == db.deployments[dep].state
      ensures r.Ok? ==> forall k: CheckpointKey :: k.dep == dep ==>
        if k in db.checkpoints then k.source in r.value.checkpoints && r.value.checkpoints[k.source] == db.checkpoints[k].value
        else k.source !in r.value.checkpoints
    {
      if dep !in db.deployments {
        return Err(NotFound);
      }
      var d := db.deployments[dep];
      var checkpoints := ReadCheckpoints(db, dep);
      return Ok(Snapshot(dep, d.artifact, d.configRevision, d.activeGeneration, d.state, d.revision, checkpoints));
    }

    /** ActivateGeneration. */
    method ActivateGeneration(s: Snapshot, fingerprint: string, token: Token, now: int) returns (r: Result<nat>)
      requires Valid()
      modifies this
      ensures Valid() && history == if r.Ok? then Next(old(history), OpenGeneration(s, fingerprint, token, now)) else old(history)
      ensures db == Activate(old(db), s, fingerprint, token, now).db && r == Activate(old(db), s, fingerprint, token, now).reply
      ensures if s.dep == "" || s.artifact == "" || s.configRevision == 0 || fingerprint == "" then r == Err(InvalidInput)
              else if !Running(old(db), s.dep, now) then r == Err(NotFound)
              else if !Gains.Unchanged(old(db), s) then r == Err(SnapshotChanged) else r.Ok?
      ensures if r.Ok? then Opened(old(db), db, s, fingerprint, token, r.value, now) else db == old(db)
    {
      hide Perform, Activate, Opened, Running, Gains.Unchanged;
      ActivateAnswers(db, s, fingerprint, token, now);
      if Activate(db, s, fingerprint, token, now).reply.Ok? {
        TablesOk(history);
        ActivateMeans(db, s, fingerprint, token, now);
      }
      OpenPerforms(db, s, fingerprint, token, now);
      var tx, next := ActivateRows(db, s, fingerprint, token, now);
      if tx.Err? {
        return Err(tx.error);
      }
      Commit(tx.value, OpenGeneration(s, fingerprint, token, now));
      return Ok(next);
    }

    /** RecoverGenerations: one transaction of set updates. */
    method RecoverGenerations(now: int)
      requires Valid()
      modifies this
      ensures Valid() && history == Next(old(history), RecoverDaemon(now))
      ensures db == Recover(old(db), now)
      ensures (forall k :: !IsCurrent(db, k)) && forall f: Frame :: Refusal(db, f) == Some(Error.Fenced)
      ensures db.deployments.Keys == old(db).deployments.Keys && forall dep :: dep in db.deployments ==> SameSources(old(db), db, dep)
      ensures db.ledger == old(db).ledger && db.events == old(db).events && db.deliveries == old(db).deliveries
      ensures Restarted(old(db), db, now)
    {
      TablesOk(history);
      hide Perform;
      RecoverMeans(db, now);
      RecoverPerforms(db, now);
      var tx := RecoveryRows(db, now);
      Commit(tx, RecoverDaemon(now));
    }

    /** MarkGenerationReady. */
    method MarkGenerationReady(dep: DeploymentId, gen: nat, now: int) returns (r: Result<()>)
      requires Valid()
      modifies this
      ensures Valid() && history == if r.Ok? then Next(old(history), GenerationReady(dep, gen, now)) else old(history)
      ensures db == MarkReady(old(db), dep, gen, now).db && r == MarkReady(old(db), dep, gen, now).reply
      ensures r.Ok? <==> Unready(old(db), GenKey(dep, gen))
      ensures r == Err(InvalidInput) <==> dep == "" || gen == 0
      ensures r.Ok? ==> Readied(old(db), db, GenKey(dep, gen), now)
      ensures forall f: Frame :: Refusal(db, f) == Refusal(old(db), f)
    {
      hide Perform;
      ReadyMeans(db, dep, gen, now);
      ReadyPerforms(db, dep, gen, now);
      var tx := ReadyRows(db, dep, gen, now);
      if tx.Err? {
        return Err(tx.error);
      }
      Commit(tx.value, GenerationReady(dep, gen, now));
      return Ok(());
    }

    /** MarkGenerationStopped. */
    method MarkGenerationStopped(dep: DeploymentId, gen: nat, failed: bool, now: int) returns (r: Result<()>)
      requires Valid()
      modifies this
      ensures Valid() && history == if r.Ok? then Next(old(history), GenerationStopped(dep, gen, failed, now)) else old(history)
      ensures db == MarkStopped(old(db), dep, gen, failed, now).db && r == MarkStopped(old(db), dep, gen, failed, now).reply
      ensures r.Ok? <==> dep != "" && gen >= 1 && GenKey(dep, gen) in old(db).generations
      ensures r.Ok? ==> Halted(old(db), db, GenKey(dep, gen), failed, now)
    {
      TablesOk(history);
      hide Perform;
      StoppedMeans(db, dep, gen, failed, now);
      StoppedPerforms(db, dep, gen, failed, now);
      var tx := StoppedRows(db, dep, gen, failed, now);
      if tx.Err? {
        return Err(tx.error);
      }
      Commit(tx.value, GenerationStopped(dep, gen, failed, now));
      return Ok(());
    }

    // ---- deployments.go -------------------------------------------------------------------------------------

    /** Deploy, the row, the fence and then the destinations one by one. */
    method DeployMonitor(newId: DeploymentId, i: DeployInput, now: int) returns (r: Result<DeploymentId>)
      requires Valid() && Allowed(history, DeployOne(newId, i, now))
      modifies this
      ensures Valid() && history == if r.Ok? then Next(old(history), DeployOne(newId, i, now)) else old(history)
      ensures db == Deploy(old(db), newId, i, now).db && r == Deploy(old(db), newId, i, now).reply
      ensures DeployAnswers(old(db), newId, i, r)
      ensures if r.Ok? then Deployed(old(db), db, r.value, i, now) else db == old(db)
    {
      hide Perform, Deploy, Deployed, DeployAnswers;
      DeployRefuses(db, newId, i, now);
      if Deploy(db, newId, i, now).reply.Ok? {
        DeployMeans(db, newId, i, now);
      }
      DeployPerforms(db, newId, i, now);
      var tx, id := DeployRows(db, newId, i, now);
      if tx.Err? {
        return Err(tx.error);
      }
      Commit(tx.value, DeployOne(newId, i, now));
      return Ok(id);
    }

    /** setDeploymentStatus, for the write that asks for it. */
    method SetDeploymentStatus(id: DeploymentId, from: Status, to: Status, expires: Option<int>, now: int,
                               ghost w: Write) returns (r: Result<()>)
      requires Valid() && !w.DeployOne? && Perform(db, w) == SetStatus(db, id, from, to, expires, now).db
      modifies this
      ensures Valid() && history == if r.Ok? then Next(old(history), w) else old(history)
      ensures db == SetStatus(old(db), id, from, to, expires, now).db && r == SetStatus(old(db), id, from, to, expires, now).reply
      ensures r.Ok? <==> id in old(db).deployments && old(db).deployments[id].status == from
      ensures r.Ok? ==> Paused(old(db), db, id, to, expires, now)
    {
      TablesOk(history);
      StatusMeans(db, id, from, to, expires, now);
      var tx := db;
      if id !in tx.deployments || tx.deployments[id].status != from {
        return Err(InvalidStatus);
      }
      tx := tx.(deployments := tx.deployments[id := tx.deployments[id].(status := to, activeGeneration := 0, expiresAt := expires)]);
      if from == Active {
        tx := tx.(generations := RetireAll(tx.generations, {id}, now));
      }
      tx := EnsureHealth(tx, id, 0, if to == Active then Starting else Stopped);
      Commit(tx, w);
      return Ok(());
    }

    /** PauseDeployment. */
    method PauseDeployment(id: DeploymentId, now: int) returns (r: Result<()>)
      requires Valid()
      modifies this
      ensures Valid() && history == if r.Ok? then Next(old(history), PauseOne(id, now)) else old(history)
      ensures r.Ok? <==> id in old(db).deployments && old(db).deployments[id].status == Active
      ensures r.Ok? ==> Paused(old(db), db, id, Inactive, None, now)
    {
      hide Perform;
      PausePerforms(db, id, now);
      r := SetDeploymentStatus(id, Active, Inactive, None, now, PauseOne(id, now));
    }

    /** ResumeDeployment. */
    method ResumeDeployment(id: DeploymentId, expires: Option<int>, now: int) returns (r: Result<()>)
      requires Valid()
      modifies this
      ensures Valid() && history == if r.Ok? then Next(old(history), ResumeOne(id, expires, now)) else old(history)
      ensures r.Ok? <==> id in old(db).deployments && old(db).deployments[id].status == Inactive
      ensures r.Ok? ==> Paused(old(db), db, id, Active, expires, now)
    {
      hide Perform;
      ResumePerforms(db, id, expires, now);
      r := SetDeploymentStatus(id, Inactive, Active, expires, now, ResumeOne(id, expires, now));
    }

    /** DeactivateDueDeployments: a read that usually finds nothing, then the transaction that rechecks. */
    method DeactivateDueDeployments(now: int) returns (count: nat)
      requires Valid()
      modifies this
      ensures Valid() && history == if count > 0 then Next(old(history), ExpireDue(now)) else old(history)
      ensures count == |set id | id in old(db).deployments && old(db).deployments[id].status == Active && !Running(old(db), id, now)|
      ensures db == if count == 0 then old(db) else Expire(old(db), now).db
      ensures count > 0 ==> Expires(old(db), db, now)
    {
      hide Perform, Expires;
      ExpireMeans(db, now);
      assert (set id | id in db.deployments && db.deployments[id].status == Active && Expired(db.deployments[id], now))
          == set id | id in db.deployments && db.deployments[id].status == Active && !Running(db, id, now);
      ExpirePerforms(db, now);
      var due := set id | id in db.deployments && db.deployments[id].status == Active && Expired(db.deployments[id], now);
      if |due| == 0 {
        return 0;
      }
      var tx := ExpireRows(db, due, now);
      Commit(tx, ExpireDue(now));
      return |due|;
    }

    /** ArchiveDeployment. */
    method ArchiveDeployment(id: DeploymentId, now: int) returns (r: Result<()>)
      requires Valid()
      modifies this
      ensures Valid() && history == if r.Ok? then Next(old(history), ArchiveOne(id, now)) else old(history)
      ensures db == Archive(old(db), id, now).db && r == Archive(old(db), id, now).reply
      ensures r.Ok? <==> id in old(db).deployments && old(db).deployments[id].status == Inactive
      ensures r.Ok? ==> Shelved(old(db), db, id, now)
    {
      TablesOk(history);
      hide Perform;
      ArchiveMeans(db, id, now);
      ArchivePerforms(db, id, now);
      var tx := ArchiveRows(db, id, now);
      if tx.Err? {
        return Err(tx.error);
      }
      Commit(tx.value, ArchiveOne(id, now));
      return Ok(());
    }

    /** PurgeDeploymentSafe. */
    method PurgeDeploymentSafe(id: DeploymentId, force: bool) returns (r: Result<()>)
      requires Valid()
      modifies this
      ensures Valid() && history == if r.Ok? then Next(old(history), PurgeOne(id, force)) else old(history)
      ensures db == Purge(old(db), id, force).db && r == Purge(old(db), id, force).reply
      ensures r.Ok? <==> Purgeable(old(db), id, force)
      ensures r.Ok? ==> Gone(db, id) && OthersKept(old(db), db, id) && OthersQueued(old(db), db, id)
      ensures r.Ok? ==> db.deployments == old(db).deployments - {id}
    {
      TablesOk(history);
      hide Perform;
      PurgeMeans(db, id, force);
      PurgePerforms(db, id, force);
      var tx := PurgeRows(db, id, force);
      if tx.Err? {
        return Err(tx.error);
      }
      Commit(tx.value, PurgeOne(id, force));
      return Ok(());
    }

    /** ReplaceState. */
    method ReplaceDeploymentState(id: DeploymentId, base: nat, state: Json, now: int) returns (r: Result<nat>)
      requires Valid()
      modifies this
      ensures Valid() && history == if r.Ok? then Next(old(history), EditState(id, base, state, now)) else old(history)
      ensures db == ReplaceState(old(db), id, base, state, now).db && r == ReplaceState(old(db), id, base, state, now).reply
      ensures r.Ok? <==>
        state != "" && id in old(db).deployments && old(db).deployments[id].status != Archived && old(db).deployments[id].revision == base
      ensures r.Ok? ==> r == Ok(base + 1) && Edited(old(db), db, id, state, now)
    {
      TablesOk(history);
      hide Perform;
      EditMeans(db, id, base, state, now);
      EditPerforms(db, id, base, state, now);
      var tx := EditRows(db, id, base, state, now);
      if tx.Err? {
        return Err(tx.error);
      }
      Commit(tx.value, EditState(id, base, state, now));
      return Ok(base + 1);
    }

    /** ClearCheckpoints. */
    method ClearDeploymentCheckpoints(id: DeploymentId, now: int) returns (r: Result<nat>)
      requires Valid()
      modifies this
      ensures Valid() && history == if r.Ok? then Next(old(history), ClearSources(id, now)) else old(history)
      ensures db == ClearCheckpoints(old(db), id, now).db && r == ClearCheckpoints(old(db), id, now).reply
      ensures r.Ok? <==> id != "" && id in old(db).deployments && old(db).deployments[id].status == Inactive
      ensures r.Ok? ==> r == Ok(|CheckpointsOf(old(db), id)|) && Cleared(old(db), db, id, now)
    {
      TablesOk(history);
      hide Perform;
      ClearMeans(db, id, now);
      ClearPerforms(db, id, now);
      var tx, count := ClearRows(db, id, now);
      if tx.Err? {
        return Err(tx.error);
      }
      Commit(tx.value, ClearSources(id, now));
      return Ok(count);
    }

    // ---- health.go --------------------------------------------------------------------------------------------

    /** RecordRun. */
    method RecordRunOutcome(dep: DeploymentId, gen: nat, status: RunStatus, nonce: nat,
                            now: int) returns (r: Result<Transition>)
      requires Valid()
      modifies this
      ensures Valid() && history == if r.Ok? then Next(old(history), RunRecorded(dep, gen, status, nonce, now)) else old(history)
      ensures db == RecordRun(old(db), dep, gen, status, nonce, now).db && r == RecordRun(old(db), dep, gen, status, nonce, now).reply
      ensures Answers(old(db), r, dep == "" || gen == 0, Heard(old(db), dep, gen), nonce)
      ensures r.Ok? ==> RunTold(old(db), db, dep, gen, status, r.value, nonce, now)
    {
      TablesOk(history);
      hide Perform;
      RunMeans(db, dep, gen, status, nonce, now);
      RunPerforms(db, dep, gen, status, nonce, now);
      var tx, t := RunRows(db, dep, gen, status, nonce, now);
      if tx.Err? {
        return Err(tx.error);
      }
      Commit(tx.value, RunRecorded(dep, gen, status, nonce, now));
      return Ok(t);
    }

    /** MarkGenerationStable. */
    method MarkGenerationStable(dep: DeploymentId, gen: nat, nonce: nat, now: int) returns (r: Result<Transition>)
      requires Valid()
      modifies this
      ensures Valid() && history == if r.Ok? then Next(old(history), StableMarked(dep, gen, nonce, now)) else old(history)
      ensures db == MarkStable(old(db), dep, gen, nonce, now).db && r == MarkStable(old(db), dep, gen, nonce, now).reply
      ensures Answers(old(db), r, false, Heard(old(db), dep, gen) && old(db).health[dep].status == Starting, nonce)
      ensures r.Ok? ==> Stabilised(old(db), db, dep, gen, r.value, nonce, now)
    {
      TablesOk(history);
      hide Perform;
      StableMeans(db, dep, gen, nonce, now);
      StablePerforms(db, dep, gen, nonce, now);
      var tx, t := StableRows(db, dep, gen, nonce, now);
      if tx.Err? {
        return Err(tx.error);
      }
      Commit(tx.value, StableMarked(dep, gen, nonce, now));
      return Ok(t);
    }

    /** recordOperationalFailure. */
    method RecordOperationalFailure(dep: DeploymentId, gen: Option<nat>, nonce: nat, now: int) returns (r: Result<Transition>)
      requires Valid()
      modifies this
      ensures Valid() && history == if r.Ok? then Next(old(history), FailureRecorded(dep, gen, nonce, now)) else old(history)
      ensures db == RecordFailure(old(db), dep, gen, nonce, now).db && r == RecordFailure(old(db), dep, gen, nonce, now).reply
      ensures Answers(old(db), r, dep == "" || gen == Some(0), Concerns(old(db), dep, gen), nonce)
      ensures r.Ok? ==> FailureTold(old(db), db, dep, gen, r.value, nonce, now)
    {
      TablesOk(history);
      hide Perform;
      FailureMeans(db, dep, gen, nonce, now);
      FailurePerforms(db, dep, gen, nonce, now);
      var tx, t := OperationalRows(db, dep, gen, nonce, now);
      if tx.Err? {
        return Err(tx.error);
      }
      Commit(tx.value, FailureRecorded(dep, gen, nonce, now));
      return Ok(t);
    }

    // ---- outbox.go ----------------------------------------------------------------------------------------------

    /** ClaimOutbox: lease the soonest due rows under a fresh identity and read them back. */
    method ClaimOutbox(owner: Owner, now: int, lease: int, limit: int) returns (out: Result<seq<DeliveryKey>>,
                       ghost chosen: set<DeliveryKey>)
      requires Valid()
      modifies this
      ensures Valid() && history == if chosen == {} then old(history) else Next(old(history), ClaimRows(owner, now, now + lease, chosen))
      ensures out.Err? <==> owner.name == "" || lease <= 0 || limit <= 0
      ensures out.Err? ==> out == Err(InvalidInput) && chosen == {}
      ensures out.Ok? ==> Selects(old(db), now, limit, chosen)
      ensures out.Ok? ==> ClaimsSoonest(old(db), now, limit, chosen)
      ensures LeasesOnly(old(db), db, owner, now + lease, chosen)
      ensures db == if chosen == {} then old(db) else Lease(old(db), owner, now + lease, chosen)
      ensures StillLeased(old(db), db, now)
      ensures out.Ok? ==> forall k :: k in out.value <==> chosen != {} && k in Claimed(db, owner, now + lease)
      ensures out.Ok? && (forall k :: k in old(db).deliveries ==> old(db).deliveries[k].owner != Some(owner)) ==>
        (forall k :: k in out.value <==> k in chosen) && |out.value| == |chosen|
    {
      hide SystemOk, Next, Perform, Claimed, Selects, Lease, ClaimsSoonest, LeasesOnly, StillLeased;
      NothingMoves(db, owner, now, now + lease);
      if owner.name == "" || lease <= 0 || limit <= 0 {
        return Err(InvalidInput), {};
      }
      SelectionExists(db, now, limit);
      var rows :| Selects(db, now, limit, rows);
      chosen := rows;
      SelectsSoonest(db, now, limit, rows);
      LeaseMoves(db, owner, now + lease, rows);
      LeaseSpares(db, Lease(db, owner, now + lease, rows), owner, now, now + lease, limit, rows);
      if rows == {} {
        return Ok([]), rows;
      }
      var tx, claimed := LeaseRows(db, owner, now + lease, rows);
      ClaimPerforms(db, owner, now, now + lease, rows);
      if forall k :: k in db.deliveries ==> db.deliveries[k].owner != Some(owner) {
        Leases.FreshClaim(history, owner, now + lease, rows);
      }
      Commit(tx, ClaimRows(owner, now, now + lease, rows));
      out := Ok(claimed);
    }

    /** finishDelivery and the update of DeferDelivery: it must hit exactly one row, the one the caller holds. */
    method FinishDelivery(k: DeliveryKey, owner: Owner, status: DeliveryStatus, counted: nat, next: Option<int>, ghost w: Write)
      returns (r: Result<()>)
      requires Valid() && status != Sending && !w.DeployOne? && Perform(db, w) == Settle(db, k, owner, status, counted, next).db
      modifies this
      ensures Valid() && history == if r.Ok? then Next(old(history), w) else old(history)
      ensures db == Settle(old(db), k, owner, status, counted, next).db && r == Settle(old(db), k, owner, status, counted, next).reply
      ensures r.Ok? <==> LeasedTo(old(db), k, owner)
      ensures r.Ok? ==> Ended(old(db), db, k, owner, status, counted, next) && forall other :: !Holds(db, k, other)
    {
      TablesOk(history);
      FinishMeans(db, k, owner, status, counted, next);
      var tx := SettleRows(db, k, owner, status, counted, next);
      if tx.Err? {
        return Err(tx.error);
      }
      Commit(tx.value, w);
      return Ok(());
    }

    /** MarkDelivered. */
    method MarkOutboxDelivered(k: DeliveryKey, owner: Owner) returns (r: Result<()>)
      requires Valid()
      modifies this
      ensures Valid() && history == if r.Ok? then Next(old(history), EndDelivered(k, owner)) else old(history)
      ensures r.Ok? <==> LeasedTo(old(db), k, owner)
      ensures if r.Ok? then Ended(old(db), db, k, owner, Delivered, 0, None) else db == old(db) && r == Err(LeaseLost)
    {
      r := FinishDelivery(k, owner, Delivered, 0, None, EndDelivered(k, owner));
    }

    /** DeferDelivery: no attempt is counted. */
    method DeferDelivery(k: DeliveryKey, owner: Owner, next: int) returns (r: Result<()>)
      requires Valid()
      modifies this
      ensures Valid() && history == if r.Ok? then Next(old(history), EndDeferred(k, owner, next)) else old(history)
      ensures r.Ok? <==> LeasedTo(old(db), k, owner)
      ensures if r.Ok? then Ended(old(db), db, k, owner, Pending, 0, Some(next)) else db == old(db) && r == Err(LeaseLost)
    {
      r := FinishDelivery(k, owner, Pending, 0, Some(next), EndDeferred(k, owner, next));
    }

    /** The read MarkDeliveryFailed makes on another connection. */
    method ReadAttemptCount(k: DeliveryKey, owner: Owner) returns (r: Result<nat>)
      ensures r == ReadAttempts(db, k, owner)
    {
      if k !in db.deliveries || db.deliveries[k].status != Sending || db.deliveries[k].owner != Some(owner) {
        return Err(LeaseLost);
      }
      return Ok(db.deliveries[k].attempts);
    }

    /** The write of MarkDeliveryFailed, whatever happened since its read. */
    method FinishFailed(k: DeliveryKey, owner: Owner, attempts: nat, next: int, maxAttempts: nat) returns (r: Result<()>)
      requires Valid() && maxAttempts >= 1
      modifies this
      ensures Valid() && history == if r.Ok? then Next(old(history), EndFailed(k, owner, attempts, next, maxAttempts)) else old(history)
      ensures r.Ok? <==> LeasedTo(old(db), k, owner)
      ensures r.Ok? && attempts + 1 >= maxAttempts ==> Ended(old(db), db, k, owner, Dead, 1, None)
      ensures r.Ok? && attempts + 1 < maxAttempts ==> Ended(old(db), db, k, owner, Pending, 1, Some(next))
      ensures r.Err? ==> db == old(db)
    {
      if attempts + 1 >= maxAttempts {
        r := FinishDelivery(k, owner, Dead, 1, None, EndFailed(k, owner, attempts, next, maxAttempts));
      } else {
        r := FinishDelivery(k, owner, Pending, 1, Some(next), EndFailed(k, owner, attempts, next, maxAttempts));
      }
    }

    /** MarkDeliveryFailed with nothing between its read and its write: the attempts never pass the limit. */
    method MarkDeliveryFailed(k: DeliveryKey, owner: Owner, next: int, maxAttempts: nat) returns (r: Result<()>)
      requires Valid()
      modifies this
      ensures Valid() && (r.Err? ==> db == old(db) && history == old(history))
      ensures r.Ok? <==> maxAttempts >= 1 && LeasedTo(old(db), k, owner)
      ensures r.Ok? && old(db).deliveries[k].attempts + 1 >= maxAttempts ==> Ended(old(db), db, k, owner, Dead, 1, None)
      ensures r.Ok? && old(db).deliveries[k].attempts + 1 < maxAttempts ==> Ended(old(db), db, k, owner, Pending, 1, Some(next))
    {
      if maxAttempts < 1 {
        return Err(InvalidInput);
      }
      var attempts := ReadAttemptCount(k, owner);
      if attempts.Err? {
        return Err(attempts.error);
      }
      r := FinishFailed(k, owner, attempts.value, next, maxAttempts);
    }

    /** RetryDeadDelivery. */
    method RetryDeadDelivery(k: DeliveryKey, now: int) returns (r: Result<()>)
      requires Valid()
      modifies this
      ensures Valid() && history == if r.Ok? then Next(old(history), RetryOne(k, now)) else old(history)
      ensures db == RetryDead(old(db), k, now).db && r == RetryDead(old(db), k, now).reply
      ensures r.Ok? <==> k in old(db).deliveries && old(db).deliveries[k].status == Dead
      ensures r.Ok? ==>
        var d := old(db).deliveries[k].(status := Pending, attempts := 0, nextAttempt := now);
        db == old(db).(deliveries := old(db).deliveries[k := d])
      ensures r.Ok? ==> forall owner :: !Holds(db, k, owner)
    {
      TablesOk(history);
      hide Perform;
      RetryMeans(db, k, now);
      RetryPerforms(db, k, now);
      var tx := RetryRows(db, k, now);
      if tx.Err? {
        return Err(tx.error);
      }
      Commit(tx.value, RetryOne(k, now));
      return Ok(());
    }

    // ---- retention.go -------------------------------------------------------------------------------------------

    /** discoverMaintenance for the outbox, in one read snapshot. */
    method DiscoverOutbox(now: int) returns (p: Page)
      ensures p == DiscoverEvents(db, now)
      ensures ListsEvents(db, p, now)
    {
      hide ListsEvents, Ascending;
      DiscoveredEvents(db, now);
      var before := CursorOf(db, OutboxSweep);
      if before.through == 0 && before.nextSweep > now {
        return Page(before, before, [], "", 0, false);
      }
      var next := before;
      if next.through == 0 {
        next := Cursor(0, Highest(EventRowids(db)), 0, 0, 0);
      }
      var ids := Ascending(InRange(EventRowids(db), next.after, next.through), BATCH);
      var candidates := ReadCandidates(db, ids, now);
      return Page(before, next, candidates, "", 0, |candidates| == 0);
    }

    /** discoverMaintenance for the ledger: walk to an aged generation, then page through its receipts. */
    method DiscoverLedger(now: int) returns (p: Page)
      ensures DiscoversReceipts(db, now, p)
      ensures ListsReceipts(db, p, now)
    {
      hide ListsReceipts, GenerationPage, Ascending, AgedRow;
      var before := CursorOf(db, LedgerSweep);
      if before.through == 0 && before.nextSweep > now {
        p := Page(before, before, [], "", 0, false);
      } else {
        var next := before;
        if next.through == 0 {
          next := Cursor(0, Highest(GenerationRows(db)), 0, 0, 0);
        }
        if next.generation != 0 {
          if key :| key in db.generations && AgedRow(db, next.generation, key, now) {
            p := GenerationPage(db, before, next, key);
          } else {
            NoAgedKey(db, next.generation, now);
            p := Page(before, next.(after := next.generation, generation := 0, seqno := 0), [], "", 0, false);
          }
        } else {
          var rows := Ascending(InRange(GenerationRows(db), next.after, next.through), BATCH);
          var i, found := WalkGenerations(db, rows, now);
          if found.Some? {
            next := next.(after := if i == 0 then next.after else rows[i - 1], generation := rows[i]);
            p := GenerationPage(db, before, next, found.value);
          } else {
            next := next.(after := if rows == [] then next.after else rows[|rows| - 1]);
            p := Page(before, next, [], "", 0, InRange(GenerationRows(db), next.after, next.through) == {});
          }
        }
      }
      DiscoveredReceipts(db, p, now);
    }

    /** prune, with its page read before. */
    method PruneSlice(name: SweepName, p: Page, now: int, budget: nat) returns (r: Result<Sweep>, ghost taken: nat)
      requires Valid()
      modifies this
      ensures Valid() && taken <= |p.ids| && history == Next(old(history), Write.PruneSlice(name, p, taken, now))
      ensures p.ids != [] ==> taken > 0
      ensures db == Prune(old(db), name, p, taken, now).db && r == Prune(old(db), name, p, taken, now).reply
      ensures r.Ok? && Sweeps.SliceEnds(old(db), db, name, p, taken, now, r.value)
    {
      hide Prune, Sweeps.SliceEnds;
      var tx, answer;
      tx, answer, taken := SweepRows(db, name, p, now, budget);
      hide Perform;
      PrunePerforms(db, name, p, taken, now);
      Sweeps.PruneColumns(db, name, p, taken, now);
      Commit(tx, Write.PruneSlice(name, p, taken, now));
      r := answer;
    }
  }

  /** The receipt of a frame that took effect is in the ledger it left. */
  lemma Durable(before: Db, f: Frame, now: int)
    requires TakesEffect(before, f, now)
    ensures Lookup(Apply(before, f, now).db, f) == Some(Ok(AckFor(f)))
  {
    LedgerKept(Advance(before, f), f, f.events, now);
  }

  lemma {:induction false} LedgerKept(tx: Db, f: Frame, es: seq<OutboxEvent>, now: int)
    requires forall i :: 0 <= i < |es| ==> ValidEvent(es[i])
    requires InsertEvents(tx, f, es, now).Ok?
    ensures InsertEvents(tx, f, es, now).value.ledger == tx.ledger
  {
    if es != [] {
      LedgerKept(tx, f, es[..|es| - 1], now);
    }
  }
}
