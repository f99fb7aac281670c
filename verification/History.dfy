/** Whole runs of write transactions: at most once, replay for ever, and a fence that only advances. */
module History {
  import opened Schema
  import opened Transactions
  import opened Lifecycle
  import opened Integrity
  import opened Writes

  /** The tables with what no table remembers: identifiers handed out, generations ever seen,
      and the frame that took effect under each key. */
  datatype System = System(db: Db, ids: set<DeploymentId>, seen: set<GenKey>, applied: map<TxKey, Frame>)

  const START := System(EMPTY_DB, {}, {}, map[])

  /** Random identifiers of deployments are never handed out twice. */
  predicate Allowed(s: System, w: Write) {
    w.DeployOne? ==> w.newId !in s.ids
  }

  function Next(s: System, w: Write): System {
    System(
      Perform(s.db, w),
      s.ids + Brings(w),
      if w.OpenGeneration? && Activate(s.db, w.snapshot, w.fingerprint, w.token, w.now).reply.Ok?
      then s.seen + {GenKey(w.snapshot.dep, Activate(s.db, w.snapshot, w.fingerprint, w.token, w.now).reply.value)}
      else s.seen,
      if w.ApplyFrame? && TakesEffect(s.db, w.frame, w.now) then s.applied[w.frame.Key() := w.frame] else s.applied)
  }

  predicate AllowedRun(s: System, ws: seq<Write>)
    decreases |ws|
  {
    ws == [] || (Allowed(s, ws[0]) && AllowedRun(Next(s, ws[0]), ws[1..]))
  }

  function Run(s: System, ws: seq<Write>): System
    decreases |ws|
  {
    if ws == [] then s else Run(Next(s, ws[0]), ws[1..])
  }

  // ---- The invariant of a run -------------------------------------------------------------

  ghost predicate OpenedOk(db: Db, ids: set<DeploymentId>, seen: set<GenKey>) {
    && db.deployments.Keys <= ids
    && db.generations.Keys <= seen
    && forall k :: k in seen ==> k.dep in ids && (k.dep in db.deployments ==> k in db.generations)
  }

  ghost predicate ReceiptsOk(db: Db, seen: set<GenKey>, applied: map<TxKey, Frame>) {
    && (forall t :: t in db.ledger ==>
          t in applied && db.ledger[t].hash == applied[t].hash && db.ledger[t].ack == AckFor(applied[t]))
    && (forall t :: t in applied ==>
          applied[t].Key() == t && GenKey(t.dep, t.gen) in seen &&
          (t !in db.ledger ==> !IsCurrent(db, GenKey(t.dep, t.gen))))
  }

  ghost predicate SystemOk(s: System) {
    Inv(s.db) && OpenedOk(s.db, s.ids, s.seen) && ReceiptsOk(s.db, s.seen, s.applied)
  }

  lemma SettlesKeepsOpened(a: Db, b: Db, ids: set<DeploymentId>, seen: set<GenKey>, brought: set<DeploymentId>)
    requires OpenedOk(a, ids, seen) && Settles(a, b)
    requires b.deployments.Keys <= a.deployments.Keys + brought && brought !! ids
    ensures OpenedOk(b, ids + brought, seen)
  {
    forall k | k in b.generations ensures k in seen {
      assert k in a.generations.Keys;
    }
    forall k | k in seen && k.dep in b.deployments ensures k in b.generations {
      assert k.dep in b.deployments.Keys;
      assert k.dep in a.deployments;
    }
  }

  lemma SettlesKeepsReceiptsOf(a: Db, b: Db, seen: set<GenKey>, applied: map<TxKey, Frame>)
    requires ReceiptsOk(a, seen, applied) && Settles(a, b)
    ensures ReceiptsOk(b, seen, applied)
  {
    forall t | t in applied && t !in b.ledger ensures !IsCurrent(b, GenKey(t.dep, t.gen)) {
      if IsCurrent(b, GenKey(t.dep, t.gen)) {
        assert IsCurrent(a, GenKey(t.dep, t.gen));
      }
    }
  }

  // ---- Frames ---------------------------------------------------------------------------

  /** What a frame that takes effect leaves: the advanced tables, but for the outbox. */
  lemma EffectShape(db: Db, f: Frame, now: int)
    requires TakesEffect(db, f, now)
    ensures var b := Apply(db, f, now).db;
      b == Advance(db, f).(events := b.events, deliveries := b.deliveries)
    ensures Apply(db, f, now).reply == Ok(AckFor(f))
    ensures IsCurrent(db, GenKey(f.dep, f.gen)) && f.Key() !in db.ledger && f.dep in db.deployments
    ensures f.base == db.deployments[f.dep].revision && f.seqno == db.generations[GenKey(f.dep, f.gen)].lastSeq + 1
  {
    InsertEventsFrame(Advance(db, f), f, f.events, now);
  }

  lemma {:induction false} InsertEventsFrame(db: Db, f: Frame, es: seq<OutboxEvent>, now: int)
    requires forall i :: 0 <= i < |es| ==> ValidEvent(es[i])
    requires InsertEvents(db, f, es, now).Ok?
    ensures InsertEvents(db, f, es, now).value.(events := db.events, deliveries := db.deliveries) == db
  {
    if es != [] {
      InsertEventsFrame(db, f, es[..|es| - 1], now);
      InsertEventFrame(InsertEvents(db, f, es[..|es| - 1], now).value, f, es[|es| - 1], now);
    }
  }

  lemma NoEffect(db: Db, f: Frame, now: int)
    requires !TakesEffect(db, f, now)
    ensures Apply(db, f, now).db == db
  {
  }

  lemma EffectKeepsOpened(db: Db, f: Frame, now: int, ids: set<DeploymentId>, seen: set<GenKey>)
    requires Inv(db) && TakesEffect(db, f, now) && OpenedOk(db, ids, seen)
    ensures OpenedOk(Apply(db, f, now).db, ids, seen)
  {
    EffectShape(db, f, now);
    assert Apply(db, f, now).db.generations.Keys == db.generations.Keys;
    assert Apply(db, f, now).db.deployments.Keys == db.deployments.Keys;
  }

  lemma EffectKeepsReceipts(db: Db, f: Frame, now: int, seen: set<GenKey>, applied: map<TxKey, Frame>)
    requires Inv(db) && TakesEffect(db, f, now) && ReceiptsOk(db, seen, applied) && db.generations.Keys <= seen
    ensures ReceiptsOk(Apply(db, f, now).db, seen, applied[f.Key() := f])
  {
    EffectShape(db, f, now);
    AdvanceReceiptsOf(db, f, seen, applied);
    SameReceipts(Advance(db, f), Apply(db, f, now).db, seen, applied[f.Key() := f]);
  }

  lemma SameReceipts(a: Db, b: Db, seen: set<GenKey>, applied: map<TxKey, Frame>)
    requires b == a.(events := b.events, deliveries := b.deliveries) && ReceiptsOk(a, seen, applied)
    ensures ReceiptsOk(b, seen, applied)
  {
    forall t | t in applied && t !in b.ledger ensures !IsCurrent(b, GenKey(t.dep, t.gen)) {
      assert !IsCurrent(a, GenKey(t.dep, t.gen));
    }
  }

  lemma AdvanceReceiptsOf(db: Db, f: Frame, seen: set<GenKey>, applied: map<TxKey, Frame>)
    requires DistinctSources(f.checkpoints) && f.dep in db.deployments
    requires IsCurrent(db, GenKey(f.dep, f.gen)) && db.generations.Keys <= seen
    requires ReceiptsOk(db, seen, applied)
    ensures ReceiptsOk(Advance(db, f), seen, applied[f.Key() := f])
  {
    var b := Advance(db, f);
    assert GenKey(f.dep, f.gen) in db.generations.Keys;
    forall t | t in applied[f.Key() := f] && t !in b.ledger ensures !IsCurrent(b, GenKey(t.dep, t.gen)) {
      assert t in applied && t !in db.ledger;
    }
  }

  /** A frame that takes effect was never applied before. */
  lemma EffectIsFirst(s: System, f: Frame, now: int)
    requires SystemOk(s) && TakesEffect(s.db, f, now)
    ensures f.Key() !in s.applied
  {
    EffectShape(s.db, f, now);
  }

  // ---- Activations ----------------------------------------------------------------------

  lemma ActivationShape(db: Db, s: Snapshot, fingerprint: string, token: Token, now: int)
    requires Inv(db) && Activate(db, s, fingerprint, token, now).reply.Ok?
    ensures s.dep in db.deployments
    ensures var key := GenKey(s.dep, Activate(db, s, fingerprint, token, now).reply.value);
      var b := Activate(db, s, fingerprint, token, now).db;
      var fenced := FencedOff(db, s.dep, now);
      && key !in db.generations && key.gen > LatestGeneration(db, s.dep)
      && Settles(db, fenced)
      && b.generations == fenced.generations[key := NewRow(db, s, fingerprint, token)]
      && b.deployments == fenced.deployments[s.dep := fenced.deployments[s.dep].(activeGeneration := key.gen)]
      && b.ledger == db.ledger && b.checkpoints == db.checkpoints && b.bindings == db.bindings
      && fenced.ledger == db.ledger && fenced.generations.Keys == db.generations.Keys
      && (forall k :: IsCurrent(fenced, k) ==> k.dep != s.dep)
  {
    ActivateOpens(db, s, fingerprint, token, now);
    FencedKeeps(db, s.dep, now);
    FencedNone(db, s.dep, now);
  }

  lemma FencedNone(db: Db, dep: DeploymentId, now: int)
    requires dep in db.deployments
    ensures forall k :: IsCurrent(FencedOff(db, dep, now), k) ==> k.dep != dep
    ensures FencedOff(db, dep, now).generations.Keys == db.generations.Keys
  {
  }

  /** `b` is `fenced` with the generation `key` opened; `fenced` is `db` with that deployment fenced. */
  ghost predicate OpensAfter(db: Db, fenced: Db, b: Db, key: GenKey) {
    && key.dep in db.deployments && key !in db.generations && key.gen > LatestGeneration(db, key.dep)
    && key in b.generations && key.dep in b.deployments
    && b.generations == fenced.generations[key := b.generations[key]]
    && fenced.generations.Keys == db.generations.Keys && b.deployments.Keys == db.deployments.Keys
    && b.ledger == fenced.ledger
  }

  lemma ActivationOpensAfter(db: Db, s: Snapshot, fingerprint: string, token: Token, now: int)
    requires Inv(db) && Activate(db, s, fingerprint, token, now).reply.Ok?
    ensures s.dep in db.deployments && Settles(db, FencedOff(db, s.dep, now))
    ensures OpensAfter(db, FencedOff(db, s.dep, now), Activate(db, s, fingerprint, token, now).db,
                       GenKey(s.dep, Activate(db, s, fingerprint, token, now).reply.value))
  {
    ActivationShape(db, s, fingerprint, token, now);
  }

  lemma OpensKeepsOpened(db: Db, fenced: Db, b: Db, key: GenKey, ids: set<DeploymentId>, seen: set<GenKey>)
    requires OpensAfter(db, fenced, b, key) && OpenedOk(db, ids, seen)
    ensures key !in seen && OpenedOk(b, ids, seen + {key})
  {
    assert key.dep in db.deployments.Keys && b.generations.Keys == db.generations.Keys + {key};
    forall k | k in seen && k.dep in b.deployments ensures k in b.generations {
      assert k.dep in b.deployments.Keys;
      assert k in db.generations.Keys;
    }
  }

  lemma OpensKeepsReceipts(db: Db, fenced: Db, b: Db, key: GenKey, seen: set<GenKey>, applied: map<TxKey, Frame>)
    requires OpensAfter(db, fenced, b, key) && ReceiptsOk(fenced, seen, applied) && key !in seen
    ensures ReceiptsOk(b, seen + {key}, applied)
  {
    forall t | t in applied && t !in b.ledger ensures !IsCurrent(b, GenKey(t.dep, t.gen)) {
      assert !IsCurrent(fenced, GenKey(t.dep, t.gen));
    }
  }

  lemma ActivationKeepsOpened(db: Db, s: Snapshot, fingerprint: string, token: Token, now: int, ids: set<DeploymentId>,
                              seen: set<GenKey>)
    requires Inv(db) && Activate(db, s, fingerprint, token, now).reply.Ok? && OpenedOk(db, ids, seen)
    ensures var key := GenKey(s.dep, Activate(db, s, fingerprint, token, now).reply.value);
      && key !in seen
      && OpenedOk(Activate(db, s, fingerprint, token, now).db, ids, seen + {key})
  {
    var done := Activate(db, s, fingerprint, token, now);
    ActivationOpensAfter(db, s, fingerprint, token, now);
    OpensKeepsOpened(db, FencedOff(db, s.dep, now), done.db, GenKey(s.dep, done.reply.value), ids, seen);
  }

  lemma ActivationKeepsReceipts(db: Db, s: Snapshot, fingerprint: string, token: Token, now: int, seen: set<GenKey>,
                                applied: map<TxKey, Frame>)
    requires Inv(db) && Activate(db, s, fingerprint, token, now).reply.Ok? && ReceiptsOk(db, seen, applied)
    requires GenKey(s.dep, Activate(db, s, fingerprint, token, now).reply.value) !in seen
    ensures var key := GenKey(s.dep, Activate(db, s, fingerprint, token, now).reply.value);
      ReceiptsOk(Activate(db, s, fingerprint, token, now).db, seen + {key}, applied)
  {
    var done := Activate(db, s, fingerprint, token, now);
    var fenced := FencedOff(db, s.dep, now);
    ActivationOpensAfter(db, s, fingerprint, token, now);
    SettlesKeepsReceiptsOf(db, fenced, seen, applied);
    OpensKeepsReceipts(db, fenced, done.db, GenKey(s.dep, done.reply.value), seen, applied);
  }

  // ---- Steps and runs -------------------------------------------------------------------

  lemma ApplyStep(s: System, w: Write)
    requires SystemOk(s) && w.ApplyFrame?
    ensures SystemOk(Next(s, w))
  {
    hide Inv, TakesEffect;
    ApplyKeeps(s.db, w.frame, w.now);
    if TakesEffect(s.db, w.frame, w.now) {
      EffectKeepsOpened(s.db, w.frame, w.now, s.ids, s.seen);
      EffectKeepsReceipts(s.db, w.frame, w.now, s.seen, s.applied);
    } else {
      NoEffect(s.db, w.frame, w.now);
    }
  }

  lemma OpenStep(s: System, w: Write)
    requires SystemOk(s) && w.OpenGeneration?
    ensures SystemOk(Next(s, w))
  {
    assert Inv(Next(s, w).db) by {
      ActivateKeeps(s.db, w.snapshot, w.fingerprint, w.token, w.now);
    }
    if Activate(s.db, w.snapshot, w.fingerprint, w.token, w.now).reply.Ok? {
      ActivationKeepsOpened(s.db, w.snapshot, w.fingerprint, w.token, w.now, s.ids, s.seen);
      ActivationKeepsReceipts(s.db, w.snapshot, w.fingerprint, w.token, w.now, s.seen, s.applied);
    } else {
      RefusedActivation(s.db, w.snapshot, w.fingerprint, w.token, w.now);
    }
  }

  lemma RefusedActivation(db: Db, s: Snapshot, fingerprint: string, token: Token, now: int)
    requires Activate(db, s, fingerprint, token, now).reply.Err?
    ensures Activate(db, s, fingerprint, token, now).db == db
  {
  }

  lemma NextKeeps(s: System, w: Write)
    requires SystemOk(s) && Allowed(s, w)
    ensures SystemOk(Next(s, w))
  {
    if w.ApplyFrame? {
      ApplyStep(s, w);
    } else if w.OpenGeneration? {
      OpenStep(s, w);
    } else {
      assert w.DeployOne? ==> w.newId !in s.db.deployments.Keys;
      ExternalSettles(s.db, w);
      SettlesKeepsOpened(s.db, Perform(s.db, w), s.ids, s.seen, Brings(w));
      SettlesKeepsReceiptsOf(s.db, Perform(s.db, w), s.seen, s.applied);
    }
  }

  lemma StartOk()
    ensures SystemOk(START)
  {
    EmptyOk();
  }

  /** In every run of every mix of writes the tables keep their invariant. */
  lemma {:induction false} RunKeeps(s: System, ws: seq<Write>)
    requires SystemOk(s) && AllowedRun(s, ws)
    ensures SystemOk(Run(s, ws))
    decreases |ws|
  {
    if ws != [] {
      NextKeeps(s, ws[0]);
      RunKeeps(Next(s, ws[0]), ws[1..]);
    }
  }

  // ---- At most once -----------------------------------------------------------------------

  /** The keys whose frames took effect, in order. */
  function Effects(s: System, ws: seq<Write>): seq<TxKey>
    decreases |ws|
  {
    if ws == [] then []
    else (if ws[0].ApplyFrame? && TakesEffect(s.db, ws[0].frame, ws[0].now) then [ws[0].frame.Key()] else [])
         + Effects(Next(s, ws[0]), ws[1..])
  }

  /** Keys that differ from one another and from every applied one. */
  ghost predicate Novel(keys: seq<TxKey>, applied: set<TxKey>) {
    && (forall i, j :: 0 <= i < j < |keys| ==> keys[i] != keys[j])
    && (forall i :: 0 <= i < |keys| ==> keys[i] !in applied)
  }

  lemma NovelFirst(key: TxKey, rest: seq<TxKey>, applied: set<TxKey>)
    requires key !in applied && Novel(rest, applied + {key})
    ensures Novel([key] + rest, applied)
  {
  }

  lemma {:induction false} EffectsAreNovel(s: System, ws: seq<Write>)
    requires SystemOk(s) && AllowedRun(s, ws)
    ensures Novel(Effects(s, ws), s.applied.Keys)
    decreases |ws|
  {
    hide SystemOk, Perform, TakesEffect, Activate;
    if ws != [] {
      var n := Next(s, ws[0]);
      var rest := Effects(n, ws[1..]);
      NextKeeps(s, ws[0]);
      EffectsAreNovel(n, ws[1..]);
      if ws[0].ApplyFrame? && TakesEffect(s.db, ws[0].frame, ws[0].now) {
        EffectIsFirst(s, ws[0].frame, ws[0].now);
        assert n.applied.Keys == s.applied.Keys + {ws[0].frame.Key()};
        NovelFirst(ws[0].frame.Key(), rest, s.applied.Keys);
      } else {
        assert Effects(s, ws) == [] + rest == rest;
      }
    }
  }

  /** Whatever is sent, resent, replayed, fenced or pruned, no key takes effect twice, and none that ever did before. */
  lemma AtMostOnce(s: System, ws: seq<Write>)
    requires SystemOk(s) && AllowedRun(s, ws)
    ensures forall i, j :: 0 <= i < j < |Effects(s, ws)| ==> Effects(s, ws)[i] != Effects(s, ws)[j]
    ensures forall i :: 0 <= i < |Effects(s, ws)| ==> Effects(s, ws)[i] !in s.applied
  {
    EffectsAreNovel(s, ws);
  }

  // ---- Replay -----------------------------------------------------------------------------

  /** A ledgered frame is answered from its receipt; once pruned it is fenced. Either way nothing is written. */
  lemma ReplayNow(s: System, f: Frame, now: int)
    requires SystemOk(s) && ValidFrame(f) && f.Key() in s.applied
    ensures Apply(s.db, f, now) == Outcome(s.db,
      if f.Key() !in s.db.ledger then Err(Error.Fenced)
      else if f.hash == s.applied[f.Key()].hash then Ok(AckFor(s.applied[f.Key()]))
      else Err(PayloadConflict))
  {
  }

  lemma {:induction false} AppliedStays(s: System, ws: seq<Write>, t: TxKey)
    requires SystemOk(s) && AllowedRun(s, ws) && t in s.applied
    ensures t in Run(s, ws).applied && Run(s, ws).applied[t] == s.applied[t]
    decreases |ws|
  {
    hide SystemOk, Perform, TakesEffect;
    if ws != [] {
      NextKeeps(s, ws[0]);
      if ws[0].ApplyFrame? && TakesEffect(s.db, ws[0].frame, ws[0].now) {
        EffectIsFirst(s, ws[0].frame, ws[0].now);
      }
      AppliedStays(Next(s, ws[0]), ws[1..], t);
    }
  }

  /** Sent again at any later point among deploys, pauses, edits, restarts and sweeps, an applied frame
      gets its first ACK back, or is fenced once its receipt is gone; it is never applied again. */
  lemma ReplayForever(s: System, f: Frame, at: int, ws: seq<Write>, now: int)
    requires SystemOk(s) && TakesEffect(s.db, f, at)
    requires AllowedRun(Next(s, ApplyFrame(f, at)), ws)
    ensures var later := Run(Next(s, ApplyFrame(f, at)), ws);
      Apply(later.db, f, now) == Outcome(later.db,
        if f.Key() in later.db.ledger then Apply(s.db, f, at).reply else Err(Error.Fenced))
  {
    var first := Next(s, ApplyFrame(f, at));
    NextKeeps(s, ApplyFrame(f, at));
    RunKeeps(first, ws);
    AppliedStays(first, ws, f.Key());
    ReplayNow(Run(first, ws), f, now);
    EffectShape(s.db, f, at);
  }

  // ---- The fence --------------------------------------------------------------------------

  /** At most one current generation a deployment, and it is the active one of an active deployment. */
  lemma OneCurrent(s: System, j: GenKey, k: GenKey)
    requires SystemOk(s) && IsCurrent(s.db, j) && IsCurrent(s.db, k) && j.dep == k.dep
    ensures j == k
    ensures s.db.deployments[k.dep].status == Active && s.db.deployments[k.dep].activeGeneration == k.gen
  {
    assert GenerationOk(s.db.deployments, j, s.db.generations[j]);
    assert GenerationOk(s.db.deployments, k, s.db.generations[k]);
  }

  lemma FrameStaysRetired(s: System, f: Frame, now: int, k: GenKey)
    requires !IsCurrent(s.db, k)
    ensures !IsCurrent(Apply(s.db, f, now).db, k)
  {
    if TakesEffect(s.db, f, now) {
      EffectShape(s.db, f, now);
    } else {
      NoEffect(s.db, f, now);
    }
  }

  lemma ActivationStaysRetired(s: System, read: Snapshot, fingerprint: string, token: Token, now: int, k: GenKey)
    requires SystemOk(s) && k in s.seen && !IsCurrent(s.db, k)
    ensures !IsCurrent(Activate(s.db, read, fingerprint, token, now).db, k)
  {
    if Activate(s.db, read, fingerprint, token, now).reply.Ok? {
      ActivationShape(s.db, read, fingerprint, token, now);
      ActivationKeepsOpened(s.db, read, fingerprint, token, now, s.ids, s.seen);
    } else {
      RefusedActivation(s.db, read, fingerprint, token, now);
    }
  }

  lemma StaysRetired(s: System, w: Write, k: GenKey)
    requires SystemOk(s) && Allowed(s, w) && k in s.seen && !IsCurrent(s.db, k)
    ensures !IsCurrent(Next(s, w).db, k)
  {
    if w.ApplyFrame? {
      FrameStaysRetired(s, w.frame, w.now, k);
    } else if w.OpenGeneration? {
      ActivationStaysRetired(s, w.snapshot, w.fingerprint, w.token, w.now, k);
    } else {
      assert w.DeployOne? ==> w.newId !in s.db.deployments.Keys;
      ExternalSettles(s.db, w);
    }
  }

  /** Once fenced, always fenced, although `active_generation` is reset to 0 in between. */
  lemma {:induction false} NeverCurrentAgain(s: System, ws: seq<Write>, k: GenKey)
    requires SystemOk(s) && AllowedRun(s, ws) && k in s.seen && !IsCurrent(s.db, k)
    ensures !IsCurrent(Run(s, ws).db, k)
    decreases |ws|
  {
    if ws != [] {
      NextKeeps(s, ws[0]);
      StaysRetired(s, ws[0], k);
      NeverCurrentAgain(Next(s, ws[0]), ws[1..], k);
    }
  }

  /** A new generation's number is above every number its deployment ever had. */
  lemma NumbersIncrease(s: System, w: Write, k: GenKey)
    requires SystemOk(s) && w.OpenGeneration?
    requires Activate(s.db, w.snapshot, w.fingerprint, w.token, w.now).reply.Ok?
    requires k in s.seen && k.dep == w.snapshot.dep
    ensures k.gen < Activate(s.db, w.snapshot, w.fingerprint, w.token, w.now).reply.value
    ensures IsCurrent(Next(s, w).db, GenKey(k.dep, Activate(s.db, w.snapshot, w.fingerprint, w.token, w.now).reply.value))
  {
    ActivationShape(s.db, w.snapshot, w.fingerprint, w.token, w.now);
    assert k in s.db.generations;
  }

  // ---- References between the tables ----------------------------------------------------------

  /** In every run, whatever was pruned, fenced or purged: a monitor event's receipt, a delivery's event and a
      delivery's binding are all there, and a row is leased exactly while it is being sent. */
  lemma NothingDangles(s: System, ws: seq<Write>)
    requires SystemOk(s) && AllowedRun(s, ws)
    ensures var db := Run(s, ws).db;
      && (forall o :: o in db.events && db.events[o].kind == Monitor ==>
            TxKey(db.events[o].dep, db.events[o].gen, db.events[o].seqno) in db.ledger)
      && (forall k :: k in db.deliveries ==>
            && k.outbox in db.events && db.events[k.outbox].dep == db.deliveries[k].dep
            && BindingKey(db.deliveries[k].dep, k.dest, db.deliveries[k].revision) in db.bindings
            && (db.deliveries[k].status == Sending <==> db.deliveries[k].owner.Some?)
            && (db.deliveries[k].status == Sending <==> db.deliveries[k].leaseExpires.Some?))
  {
    RunKeeps(s, ws);
    var db := Run(s, ws).db;
    forall o | o in db.events && db.events[o].kind == Monitor
      ensures TxKey(db.events[o].dep, db.events[o].gen, db.events[o].seqno) in db.ledger
    {
      assert EventOk(db.deployments, db.ledger, db.events[o]);
    }
    forall k | k in db.deliveries ensures DeliveryOk(db.events, db.bindings, k, db.deliveries[k]) {
    }
  }

  /** In every run the ledger of an active generation holds exactly the sequences up to its last, and their result
      revisions count up to the deployment's revision. */
  lemma LedgerIsConsecutive(s: System, ws: seq<Write>, k: GenKey)
    requires SystemOk(s) && AllowedRun(s, ws) && IsCurrent(Run(s, ws).db, k)
    ensures var db := Run(s, ws).db;
      && k.dep in db.deployments
      && (forall n: nat :: TxKey(k.dep, k.gen, n) in db.ledger <==> 1 <= n <= db.generations[k].lastSeq)
      && (forall n: nat :: TxKey(k.dep, k.gen, n) in db.ledger ==>
            && db.ledger[TxKey(k.dep, k.gen, n)].result == db.deployments[k.dep].revision - db.generations[k].lastSeq + n
            && db.ledger[TxKey(k.dep, k.gen, n)].base == db.ledger[TxKey(k.dep, k.gen, n)].result - 1)
  {
    RunKeeps(s, ws);
    CurrentLedger(Run(s, ws).db, k);
  }

  lemma CurrentLedger(db: Db, k: GenKey)
    requires GenerationsOk(db.deployments, db.generations) && LedgerOk(db.deployments, db.generations, db.ledger)
    requires LedgerComplete(db.generations, db.ledger) && IsCurrent(db, k)
    ensures k.dep in db.deployments
    ensures forall n: nat :: TxKey(k.dep, k.gen, n) in db.ledger <==> 1 <= n <= db.generations[k].lastSeq
    ensures forall n: nat :: TxKey(k.dep, k.gen, n) in db.ledger ==>
      && db.ledger[TxKey(k.dep, k.gen, n)].result == db.deployments[k.dep].revision - db.generations[k].lastSeq + n
      && db.ledger[TxKey(k.dep, k.gen, n)].base == db.ledger[TxKey(k.dep, k.gen, n)].result - 1
  {
    assert GenerationOk(db.deployments, k, db.generations[k]);
    forall n: nat | TxKey(k.dep, k.gen, n) in db.ledger
      ensures ReceiptOk(db.deployments, db.generations, TxKey(k.dep, k.gen, n), db.ledger[TxKey(k.dep, k.gen, n)])
    {
    }
    forall n: nat | 1 <= n <= db.generations[k].lastSeq ensures TxKey(k.dep, k.gen, n) in db.ledger {
    }
  }
}
