/** What the commit protocol guarantees in every run: sends, resends, lost and duplicate ACKs, failed writes,
    restarts, launches and every write of the operators, in any order. */
module ProtocolTheorems {
  import opened Schema
  import opened Transactions
  import opened Lifecycle
  import opened Integrity
  import opened Writes
  import opened History
  import opened Protocol
  import opened ProtocolSafety
  import opened WorldSafety
  import opened Fanout
  import opened Origins

  /** Some run from an empty store leads here. */
  ghost predicate Reachable(x: World) {
    exists steps :: Possible(GENESIS, steps) && Play(GENESIS, steps) == x
  }

  lemma ReachableOk(x: World)
    requires Reachable(x)
    ensures WorldOk(x)
  {
    var steps :| Possible(GENESIS, steps) && Play(GENESIS, steps) == x;
    GenesisOk();
    PlayKeeps(GENESIS, steps);
  }

  lemma WorkerAt(x: World, key: GenKey)
    requires Reachable(x) && key in x.workers
    ensures SystemOk(x.sys) && Sound(x.sys.db, key, x.workers[key])
  {
    ReachableOk(x);
  }

  // ---- The session mirrors the store --------------------------------------------------------------

  /** The tables hold exactly this state, revision and checkpoints. */
  ghost predicate Durably(db: Db, dep: DeploymentId, state: Json, revision: nat, checkpoints: map<string, Json>) {
    && dep in db.deployments && db.deployments[dep].state == state && db.deployments[dep].revision == revision
    && CheckpointsOf(db, dep) == checkpoints
  }

  lemma MirrorsWhenSettled(db: Db, key: GenKey, w: Worker)
    requires Sound(db, key, w) && IsCurrent(db, key) && w.accepted == w.applied && w.durable == w.hello.checkpoints
    ensures Durably(db, key.dep, w.state, w.coord.revision, w.checkpoints)
  {
  }

  /** Between commits, as long as none was given up, an unfenced session is a mirror of the store. */
  lemma SessionMirrorsStore(x: World, key: GenKey)
    requires Reachable(x) && key in x.workers && IsCurrent(x.sys.db, key)
    requires x.workers[key].inflight.None? && !x.workers[key].abandoned
    requires x.workers[key].durable == x.workers[key].hello.checkpoints
    ensures var w := x.workers[key]; Durably(x.sys.db, key.dep, w.state, w.coord.revision, w.checkpoints)
  {
    WorkerAt(x, key);
    MirrorsWhenSettled(x.sys.db, key, x.workers[key]);
  }

  /** A commit succeeds in this step. */
  predicate Succeeds(w: Worker) {
    w.inflight.Some? && w.coord.signal && w.coord.pending.Some? && w.coord.pending.value.status != Refused
  }

  lemma WakeSettles(key: GenKey, w: Worker)
    requires BasicOk(key, w) && Succeeds(w)
    ensures Wake(w).accepted == Wake(w).applied == |w.sent| && Wake(w).state == w.inflight.value.next
    ensures Wake(w).coord.revision == w.hello.revision + |w.sent|
  {
    PendingIsNext(key, w);
  }

  /** When `Commit` returns without an error and the generation is unfenced, what it committed is what is stored,
      even after earlier commits of this worker were given up. */
  lemma SuccessIsDurable(db: Db, key: GenKey, w: Worker)
    requires Sound(db, key, w) && IsCurrent(db, key) && Succeeds(w) && w.durable == w.hello.checkpoints
    ensures var v := Wake(w);
      Durably(db, key.dep, v.state, v.coord.revision, v.checkpoints) && v.state == w.inflight.value.next
  {
    WakeSettles(key, w);
    WakeKeeps(key, w);
    RemembersKeeps(db, key, w, Wake(w)) by {
      LocalRemembers(db, key, w, AckReady(key));
    }
    MirrorsWhenSettled(db, key, Wake(w));
  }

  lemma CommitSucceeds(x: World, key: GenKey)
    requires Reachable(x) && key in x.workers && Succeeds(x.workers[key]) && IsCurrent(x.sys.db, key)
    requires x.workers[key].durable == x.workers[key].hello.checkpoints
    ensures var v := Wake(x.workers[key]);
      && Durably(x.sys.db, key.dep, v.state, v.coord.revision, v.checkpoints)
      && v.state == x.workers[key].inflight.value.next
  {
    WorkerAt(x, key);
    SuccessIsDurable(x.sys.db, key, x.workers[key]);
  }

  // ---- An uncertain commit --------------------------------------------------------------------------

  lemma CalmSubmit(key: GenKey, w: Worker, tx: Tx, send: SendOutcome)
    requires WorkerOk(key, w) && !w.abandoned && w.inflight.None?
    ensures var v := Submit(key, w, tx, send); v.accepted <= |v.sent| <= v.accepted + 1
  {
  }

  /** The first commit a worker gives up leaves at most one frame undecided. */
  lemma GivingUp(db: Db, key: GenKey, w: Worker, s: Step)
    requires WorkerOk(key, w) && Local(s) && Ready(w, s) && !w.abandoned && LocalNext(db, key, w, s).abandoned
    ensures var v := LocalNext(db, key, w, s); v.accepted <= |v.sent| <= v.accepted + 1
  {
    if s.Commit? {
      CalmSubmit(key, w, s.tx, s.send);
    } else {
      CalmWait(db, key, w, s);
    }
  }

  lemma CalmWait(db: Db, key: GenKey, w: Worker, s: Step)
    requires w.accepted <= |w.sent| <= w.accepted + 1 && Local(s) && !s.Commit? && Ready(w, s)
    requires !w.abandoned && LocalNext(db, key, w, s).abandoned
    ensures LocalNext(db, key, w, s).sent == w.sent && LocalNext(db, key, w, s).accepted == w.accepted
  {
  }

  /** The tables hold the base a frame proposed to change, or what it proposed. */
  ghost predicate BaseOrNext(db: Db, dep: DeploymentId, w: Worker, f: WireFrame) {
    || Durably(db, dep, w.state, w.coord.revision, w.checkpoints)
    || Durably(db, dep, f.next, w.coord.revision + 1, w.checkpoints + f.checkpoints)
  }

  lemma OneUndecided(db: Db, key: GenKey, w: Worker)
    requires Sound(db, key, w) && IsCurrent(db, key) && |w.sent| == w.accepted + 1 && w.durable == w.hello.checkpoints
    ensures BaseOrNext(db, key.dep, w, w.sent[w.accepted])
  {
    if w.applied == w.accepted {
      MirrorsWhenSettled(db, key, w);
    }
  }

  /** With one frame undecided, what is stored is the base the session still holds or the state it proposed;
      never a mixture, and never anything else while the generation is unfenced. */
  lemma UncertainIsBaseOrNext(x: World, key: GenKey)
    requires Reachable(x) && key in x.workers && IsCurrent(x.sys.db, key)
    requires |x.workers[key].sent| == x.workers[key].accepted + 1
    requires x.workers[key].durable == x.workers[key].hello.checkpoints
    ensures BaseOrNext(x.sys.db, key.dep, x.workers[key], x.workers[key].sent[x.workers[key].accepted])
  {
    WorkerAt(x, key);
    OneUndecided(x.sys.db, key, x.workers[key]);
  }

  // ---- What the store answers an honest worker -------------------------------------------------------

  /** The frame the daemon builds from the bindings it listed. */
  ghost predicate Daemons(w: Worker, dep: DeploymentId, f: Frame, ds: seq<OutboxDelivery>) {
    && w.phase.Bound? && f == StoreFrame(w.phase.frame, f.checkpoints, ds)
    && Lists(f.checkpoints, w.phase.frame.checkpoints) && Addresses(ds, w.phase.bindings, dep)
  }

  lemma ReceiptAnswers(db: Db, key: GenKey, w: Worker, f: Frame)
    requires SentOk(key, w) && PipesOk(w) && ReceiptsMatch(db.ledger, key, w) && Hands(w, f) && f.Key() in db.ledger
    ensures Lookup(db, f) == Some(Ok(AckAt(key, w, f.seqno)))
  {
    HandsKnown(key, w, f);
  }

  lemma FenceAdmits(db: Db, key: GenKey, w: Worker, f: Frame)
    requires GenerationsOk(db.deployments, db.generations) && LedgerComplete(db.generations, db.ledger)
    requires IsCurrent(db, key) && RowMatches(db.generations, key, w) && StateMatches(db, key, w)
    requires f.dep == key.dep && f.gen == key.gen && f.token == w.token && 1 <= f.seqno <= |w.sent|
    requires |w.sent| <= w.accepted + 1 && w.accepted <= w.applied && f.Key() !in db.ledger
    requires f.base == w.sent[f.seqno - 1].base && BasesOk(w)
    ensures Refusal(db, f) == None
  {
    CurrentRow(db, key);
    if f.seqno <= w.applied {
      Ledgered(db, key, f.seqno);
    }
  }

  lemma Ledgered(db: Db, key: GenKey, n: nat)
    requires LedgerComplete(db.generations, db.ledger) && IsCurrent(db, key) && 1 <= n <= db.generations[key].lastSeq
    ensures TxKey(key.dep, key.gen, n) in db.ledger
  {
  }

  /** A receipt answers the frame, or neither fence, sequence nor revision stands in its way. */
  lemma NeverConflicts(db: Db, key: GenKey, w: Worker, f: Frame)
    requires FenceOk(db) && Sound(db, key, w) && IsCurrent(db, key) && |w.sent| <= w.accepted + 1 && Hands(w, f)
    ensures if f.Key() in db.ledger then Lookup(db, f).Some? && Lookup(db, f).value.Ok? else Refusal(db, f) == None
  {
    HandsKnown(key, w, f);
    if f.Key() in db.ledger {
      ReceiptAnswers(db, key, w, f);
    } else {
      FenceAdmits(db, key, w, f);
    }
  }

  lemma CurrentRow(db: Db, key: GenKey)
    requires GenerationsOk(db.deployments, db.generations) && IsCurrent(db, key)
    ensures key.dep in db.deployments && db.deployments[key.dep].activeGeneration == key.gen
  {
    assert GenerationOk(db.deployments, key, db.generations[key]);
  }

  /** Bindings listed before the write are all there when it happens, each destination once. */
  lemma ListedBindings(db: Db, key: GenKey, w: Worker, f: Frame, ds: seq<OutboxDelivery>)
    requires OwnersOk(db) && BindingsOk(db.bindings) && BindingsMatch(db, key, w) && IsCurrent(db, key)
    requires Daemons(w, key.dep, f, ds) && w.phase.frame.events != []
    ensures ValidDeliveries(ds) && Addresses(ds, ActiveBindings(db, key.dep), key.dep)
  {
    forall i | 0 <= i < |ds| ensures ds[i].dest > 0 && ds[i].revision > 0 {
      assert BindingKey(key.dep, ds[i].dest, ds[i].revision) in w.phase.bindings;
    }
    forall i, j | 0 <= i < j < |ds| ensures ds[i].dest != ds[j].dest {
      assert BindingKey(key.dep, ds[i].dest, ds[i].revision) in w.phase.bindings;
      assert BindingKey(key.dep, ds[j].dest, ds[j].revision) in w.phase.bindings;
    }
  }

  lemma DaemonsInsertable(db: Db, key: GenKey, w: Worker, f: Frame, ds: seq<OutboxDelivery>, i: nat)
    requires OutboxOk(db) && Derives(db.events) && OwnersOk(db) && BindingsOk(db.bindings)
    requires BindingsMatch(db, key, w) && IsCurrent(db, key) && f.dep == key.dep
    requires Daemons(w, key.dep, f, ds) && f.Key() !in db.ledger && i < |f.events|
    ensures Insertable(db, key.dep, f.events[i]) && f.events[i].deliveries == ds
  {
    UnappliedIsUnused(db, f, i);
    ListedBindings(db, key, w, f, ds);
  }

  /** Advancing the row of the frame leaves the outbox and the bindings as they are. */
  lemma AdvanceOutside(db: Db, f: Frame)
    requires DistinctSources(f.checkpoints) && f.dep in db.deployments && GenKey(f.dep, f.gen) in db.generations
    ensures var b := Advance(db, f); b.events == db.events && b.deliveries == db.deliveries && b.bindings == db.bindings
  {
  }

  lemma SameOccurrences(a: Db, b: Db, dep: DeploymentId, es: seq<OutboxEvent>)
    requires a.events == b.events && Reuses(a, dep, es)
    ensures Reuses(b, dep, es)
  {
    var i :| 0 <= i < |es| && Occurred(a, dep, Named(es[i].eventId)) && !OccurredAs(a, dep, Named(es[i].eventId), es[i].message);
    assert Occurred(b, dep, Named(es[i].eventId)) && !OccurredAs(b, dep, Named(es[i].eventId), es[i].message);
  }

  lemma EventsAnswer(db: Db, key: GenKey, w: Worker, f: Frame, ds: seq<OutboxDelivery>, now: int)
    requires OutboxOk(db) && Derives(db.events) && OwnersOk(db) && BindingsOk(db.bindings)
    requires BindingsMatch(db, key, w) && IsCurrent(db, key) && f.dep == key.dep && f.gen == key.gen
    requires Daemons(w, key.dep, f, ds) && f.Key() !in db.ledger && f.dep in db.deployments && ValidFrame(f)
    ensures var r := InsertEvents(Advance(db, f), f, f.events, now);
      r.Ok? || (r == Err(PayloadConflict) && Reuses(db, f.dep, f.events))
  {
    AdvanceOutside(db, f);
    RootedOutbox(db);
    forall i | 0 <= i < |f.events| ensures Insertable(Advance(db, f), f.dep, f.events[i]) {
      DaemonsInsertable(db, key, w, f, ds, i);
    }
    if InsertEvents(Advance(db, f), f, f.events, now).Err? {
      EventsConflict(Advance(db, f), f, f.events, now);
      SameOccurrences(Advance(db, f), db, f.dep, f.events);
    }
  }

  /** What a worker can get wrong in a frame: everything else in it is not of its choosing. */
  ghost predicate Misproposed(f: WireFrame) {
    || |f.token| < 16 || f.next == ""
    || (exists s :: s in f.checkpoints && (s == "" || f.checkpoints[s] == ""))
    || (exists i :: 0 <= i < |f.events| && (f.events[i].id == "" || forall c :: c in f.events[i].message.title ==> Space(c)))
    || (exists i, j :: 0 <= i < j < |f.events| && f.events[i].id == f.events[j].id)
  }

  /** How a frame can fail although its worker is honest: it proposes something empty, or it reuses an event identifier. */
  ghost predicate Faulty(db: Db, wire: WireFrame, f: Frame, error: Error) {
    || (error == InvalidInput && Misproposed(wire))
    || (error == PayloadConflict && Reuses(db, f.dep, f.events))
  }

  /** The daemon's part of the events is always well formed. */
  lemma BuiltEvents(wire: WireFrame, ds: seq<OutboxDelivery>)
    requires wire.events != [] ==> ValidDeliveries(ds)
    ensures var es := OutboxEvents(wire, ds);
      || ((forall i :: 0 <= i < |es| ==> ValidEvent(es[i])) && DistinctEvents(es))
      || (exists i :: 0 <= i < |es| && (es[i].eventId == "" || Blank(es[i].message.title)))
      || (exists i, j :: 0 <= i < j < |es| && es[i].eventId == es[j].eventId)
  {
  }

  lemma ListedSources(ms: seq<Mutation>, m: map<string, Json>, i: nat)
    requires Lists(ms, m) && i < |ms|
    ensures ms[i].source in m && m[ms[i].source] == ms[i].value
  {
    assert ms[i] in ms;
  }

  /** A frame an honest worker proposes with something in every field is valid, whatever its sequence. */
  lemma ProposedWell(db: Db, key: GenKey, w: Worker, f: Frame, ds: seq<OutboxDelivery>)
    requires GenerationsOk(db.deployments, db.generations) && OwnersOk(db) && BindingsOk(db.bindings) && IsCurrent(db, key)
    requires SentOk(key, w) && PipesOk(w) && BindingsMatch(db, key, w) && Hands(w, f) && Daemons(w, key.dep, f, ds)
    requires !Misproposed(w.phase.frame)
    ensures ValidFrame(f)
  {
    var wire := w.phase.frame;
    HandsKnown(key, w, f);
    HeldFrame(key, w);
    assert GenerationOk(db.deployments, key, db.generations[key]);
    if wire.events != [] {
      ListedBindings(db, key, w, f, ds);
    }
    BuiltEvents(wire, ds);
    forall i | 0 <= i < |f.checkpoints| ensures f.checkpoints[i].source != "" && f.checkpoints[i].value != "" {
      ListedSources(f.checkpoints, wire.checkpoints, i);
    }
  }

  lemma HonestAnswer(db: Db, key: GenKey, w: Worker, f: Frame, ds: seq<OutboxDelivery>, now: int)
    requires Inv(db) && Derives(db.events) && Sound(db, key, w) && IsCurrent(db, key)
    requires |w.sent| <= w.accepted + 1 && Hands(w, f) && Daemons(w, key.dep, f, ds)
    ensures Apply(db, f, now).reply.Ok? || Faulty(db, w.phase.frame, f, Apply(db, f, now).reply.error)
  {
    if !Misproposed(w.phase.frame) {
      ProposedWell(db, key, w, f, ds);
    }
    if ValidFrame(f) {
      NeverConflicts(db, key, w, f);
      if f.Key() !in db.ledger {
        HandsKnown(key, w, f);
        CurrentRow(db, key);
        EventsAnswer(db, key, w, f, ds, now);
      }
    }
  }

  // ---- Every run of the world is a run of writes ------------------------------------------------------

  /** Steps that are a write transaction. */
  predicate Writing(s: Step) {
    s.External? || s.Restart? || s.Launch? || s.Store?
  }

  ghost function EntryOf(x: World, s: Step): Write
    requires Happenable(x, s) && Writing(s)
  {
    match s
    case External(write) => write
    case Restart(now) => RecoverDaemon(now)
    case Launch(index, fingerprint, token, now) => OpenGeneration(x.launches[index], fingerprint, token, now)
    case Store(_, _, _, now) => ApplyFrame(HandedFrame(x, s), now)
  }

  lemma HappensWrites(x: World, s: Step)
    requires Enabled(x, s)
    ensures Happens(x, s).sys == if Writing(s) then Next(x.sys, EntryOf(x, s)) else x.sys
    ensures Writing(s) ==> Allowed(x.sys, EntryOf(x, s))
    ensures Writing(s) && EntryOf(x, s).ApplyFrame? ==> Numbered(EntryOf(x, s).frame)
  {
  }

  /** The writes of a run of the world, in order. */
  ghost function Journal(x: World, steps: seq<Step>): seq<Write>
    requires Possible(x, steps)
    decreases |steps|
  {
    if steps == [] then []
    else (if Writing(steps[0]) then [EntryOf(x, steps[0])] else []) + Journal(Happens(x, steps[0]), steps[1..])
  }

  lemma {:induction false} PlayIsRun(x: World, steps: seq<Step>)
    requires Possible(x, steps)
    ensures AllowedRun(x.sys, Journal(x, steps)) && Run(x.sys, Journal(x, steps)) == Play(x, steps).sys
    decreases |steps|
  {
    if steps != [] {
      var y := Happens(x, steps[0]);
      var rest := Journal(y, steps[1..]);
      HappensWrites(x, steps[0]);
      PlayIsRun(y, steps[1..]);
      if Writing(steps[0]) {
        RunFirst(x.sys, EntryOf(x, steps[0]), rest);
      } else {
        assert Journal(x, steps) == [] + rest == rest;
      }
    }
  }

  lemma RunFirst(s: System, w: Write, rest: seq<Write>)
    requires Allowed(s, w) && AllowedRun(Next(s, w), rest)
    ensures AllowedRun(s, [w] + rest) && Run(s, [w] + rest) == Run(Next(s, w), rest)
  {
    assert ([w] + rest)[1..] == rest;
  }

  /** In every run of workers, daemons and operators, no commit takes effect twice. */
  lemma CommitsTakeEffectOnce(steps: seq<Step>)
    requires Possible(GENESIS, steps)
    ensures var effects := Effects(START, Journal(GENESIS, steps));
      forall i, j :: 0 <= i < j < |effects| ==> effects[i] != effects[j]
  {
    StartOk();
    PlayIsRun(GENESIS, steps);
    AtMostOnce(START, Journal(GENESIS, steps));
  }

  // ---- Identifiers stay with their frames in every world ----------------------------------------------

  lemma OpenEvents(s: System, w: Write)
    requires w.OpenGeneration?
    ensures Next(s, w).db.events == s.db.events
  {
    var b := Next(s, w).db;
    assert b == s.db || b == s.db.(deployments := b.deployments, generations := b.generations, health := b.health);
  }

  lemma EntryDerives(s: System, w: Write)
    requires SystemOk(s) && Derives(s.db.events) && (w.ApplyFrame? ==> Numbered(w.frame))
    ensures Derives(Next(s, w).db.events)
  {
    hide TakesEffect, Derives, Activate;
    if w.ApplyFrame? {
      FrameNext(s, w.frame, w.now);
      if TakesEffect(s.db, w.frame, w.now) {
        RootedOutbox(s.db);
        FrameDerives(s.db, w.frame, w.now);
      }
    } else if w.OpenGeneration? {
      OpenEvents(s, w);
    } else {
      ExternalRandomly(s.db, w);
      RandomlyDerives(s.db.events, Next(s, w).db.events);
    }
  }

  lemma HappensDerives(x: World, s: Step)
    requires WorldOk(x) && Derives(x.sys.db.events) && Enabled(x, s)
    ensures Derives(Happens(x, s).sys.db.events)
  {
    HappensWrites(x, s);
    if Writing(s) {
      EntryDerives(x.sys, EntryOf(x, s));
    }
  }

  lemma {:induction false} PlayDerives(x: World, steps: seq<Step>)
    requires WorldOk(x) && Derives(x.sys.db.events) && Possible(x, steps)
    ensures Derives(Play(x, steps).sys.db.events)
    decreases |steps|
  {
    if steps != [] {
      HappensKeeps(x, steps[0]);
      HappensDerives(x, steps[0]);
      PlayDerives(Happens(x, steps[0]), steps[1..]);
    }
  }

  lemma ReachableDerives(x: World)
    requires Reachable(x)
    ensures Derives(x.sys.db.events)
  {
    var steps :| Possible(GENESIS, steps) && Play(GENESIS, steps) == x;
    GenesisOk();
    PlayDerives(GENESIS, steps);
  }

  // ---- Theorems about honest workers --------------------------------------------------------------------

  /** The daemon of this worker hands the store a frame. */
  ghost predicate Handing(x: World, key: GenKey, f: Frame, ds: seq<OutboxDelivery>) {
    key in x.workers && Hands(x.workers[key], f) && Daemons(x.workers[key], key.dep, f, ds)
  }

  /** An honest worker of an unfenced generation is never told that it is fenced, out of sequence or out of date,
      and its bindings are never stale: the store acknowledges its frame unless the frame itself is at fault. */
  lemma HonestWorkerIsAcknowledged(x: World, key: GenKey, f: Frame, ds: seq<OutboxDelivery>, now: int)
    requires Reachable(x) && Handing(x, key, f, ds) && IsCurrent(x.sys.db, key) && !x.workers[key].abandoned
    ensures var reply := Apply(x.sys.db, f, now).reply;
      reply.Ok? || Faulty(x.sys.db, x.workers[key].phase.frame, f, reply.error)
  {
    WorkerAt(x, key);
    ReachableDerives(x);
    HonestAnswer(x.sys.db, key, x.workers[key], f, ds, now);
  }

  /** Every frame handed over by a daemon is one `Handing` describes. */
  lemma StoreHands(x: World, s: Step)
    requires s.Store? && Enabled(x, s)
    ensures Handing(x, s.key, HandedFrame(x, s), s.deliveries)
  {
    HandedHands(x, s);
  }

  /** The revision an unfenced worker was greeted with plus the frames of it that took effect is the revision stored. */
  lemma RevisionCounts(x: World, key: GenKey)
    requires Reachable(x) && key in x.workers && IsCurrent(x.sys.db, key)
    ensures key.dep in x.sys.db.deployments
    ensures x.sys.db.deployments[key.dep].revision == x.workers[key].hello.revision + x.sys.db.generations[key].lastSeq
    ensures x.sys.db.generations[key].lastSeq == x.workers[key].applied <= |x.workers[key].sent|
  {
    WorkerAt(x, key);
    assert StateMatches(x.sys.db, key, x.workers[key]) && RowMatches(x.sys.db.generations, key, x.workers[key]);
  }

  // ---- Events and deliveries ----------------------------------------------------------------------------

  /** A new row is one event of the frame, waiting for exactly the given bindings, once each. */
  ghost predicate FannedOut(es: Events, ds: Deliveries, o: OutboxId, f: Frame, keys: set<BindingKey>) {
    && (exists i :: 0 <= i < |f.events| && f.events[i].outboxId == o && o in es
          && es[o].dep == f.dep && es[o].eventId == Named(f.events[i].eventId) && es[o].message == f.events[i].message)
    && (forall k :: k in ds && k.outbox == o ==> exists b :: b in keys && b.dest == k.dest)
    && (forall b :: b in keys ==>
          && DeliveryKey(o, b.dest) in ds
          && ds[DeliveryKey(o, b.dest)].revision == b.revision && ds[DeliveryKey(o, b.dest)].status == Pending
          && ds[DeliveryKey(o, b.dest)].attempts == 0)
  }

  lemma RecordedFansOut(es: Events, ds: Deliveries, f: Frame, i: nat, listed: seq<OutboxDelivery>, keys: set<BindingKey>,
                        now: int)
    requires i < |f.events| && Recorded(es, ds, f, f.events[i], now) && f.events[i].deliveries == listed
    requires Addresses(listed, keys, f.dep)
    ensures FannedOut(es, ds, f.events[i].outboxId, f, keys)
  {
    var o := f.events[i].outboxId;
    forall k | k in ds && k.outbox == o ensures exists b :: b in keys && b.dest == k.dest {
      var d :| d in listed && d.dest == k.dest;
      assert BindingKey(f.dep, d.dest, d.revision) in keys;
    }
    forall b | b in keys
      ensures DeliveryKey(o, b.dest) in ds && ds[DeliveryKey(o, b.dest)].revision == b.revision
      ensures ds[DeliveryKey(o, b.dest)].status == Pending && ds[DeliveryKey(o, b.dest)].attempts == 0
    {
      assert OutboxDelivery(b.dest, b.revision) in listed;
    }
  }

  lemma FrameFansOut(db: Db, key: GenKey, w: Worker, f: Frame, ds: seq<OutboxDelivery>, now: int, o: OutboxId)
    requires OutboxOk(db) && OwnersOk(db) && BindingsOk(db.bindings) && BindingsMatch(db, key, w) && IsCurrent(db, key)
    requires Daemons(w, key.dep, f, ds) && f.dep == key.dep && TakesEffect(db, f, now)
    requires o in Apply(db, f, now).db.events && o !in db.events
    ensures FannedOut(Apply(db, f, now).db.events, Apply(db, f, now).db.deliveries, o, f, ActiveBindings(db, key.dep))
  {
    RootedOutbox(db);
    FrameRecords(Advance(db, f), f, f.events, now);
    var b := Apply(db, f, now).db;
    var i: nat :| i < |f.events| && f.events[i].outboxId == o && Recorded(b.events, b.deliveries, f, f.events[i], now);
    ListedBindings(db, key, w, f, ds);
    RecordedFansOut(b.events, b.deliveries, f, i, ds, ActiveBindings(db, key.dep), now);
  }

  /** Although the bindings were listed in an earlier read, every event a frame inserts gets exactly one delivery
      for each binding that is active at its commit, and no other. */
  lemma EventsReachEveryBinding(x: World, key: GenKey, f: Frame, ds: seq<OutboxDelivery>, now: int, o: OutboxId)
    requires Reachable(x) && Handing(x, key, f, ds) && TakesEffect(x.sys.db, f, now)
    requires o in Apply(x.sys.db, f, now).db.events && o !in x.sys.db.events
    ensures FannedOut(Apply(x.sys.db, f, now).db.events, Apply(x.sys.db, f, now).db.deliveries, o, f, ActiveBindings(x.sys.db, key.dep))
  {
    WorkerAt(x, key);
    EffectFacts(x.sys.db, key, x.workers[key], f, now);
    FrameFansOut(x.sys.db, key, x.workers[key], f, ds, now, o);
  }

  // ---- ACKs and frames ------------------------------------------------------------------------------------

  /** Resends, replays and duplicate ACKs never make the control channel fail, as long as no commit was given up. */
  lemma ControlChannelSurvives(x: World, key: GenKey)
    requires Reachable(x) && key in x.workers && !x.workers[key].abandoned
    ensures !x.workers[key].coord.fatal
    ensures x.workers[key].down != [] ==> !RefusesAck(x.workers[key].coord, x.workers[key].down[0])
  {
    WorkerAt(x, key);
    if x.workers[key].down != [] {
      CalmNeverRefuses(key, x.workers[key]);
    }
  }

  /** A frame that is on its way from the worker to the store. */
  ghost predicate OnItsWay(w: Worker, f: WireFrame) {
    f in w.up || w.blocked == Some(f) || (w.phase.Bound? && w.phase.frame == f)
  }

  lemma OnItsWayIsSent(key: GenKey, w: Worker, f: WireFrame)
    requires SentOk(key, w) && PipesOk(w) && OnItsWay(w, f)
    ensures Member(w, f) && f.dep == key.dep && f.gen == key.gen && f.token == w.token
  {
    assert Member(w, f);
    assert Genuine(key, w, w.sent[f.seqno - 1]);
  }

  lemma LocalKeepsSent(x: World, s: Step, key: GenKey)
    requires Happenable(x, s) && Local(s) && key in x.workers
    ensures key in Happens(x, s).workers && x.workers[key].sent <= Happens(x, s).workers[key].sent
  {
    LocalRemembers(x.sys.db, s.key, x.workers[s.key], s);
  }

  lemma StoreKeepsSent(x: World, s: Step, key: GenKey)
    requires Happenable(x, s) && s.Store? && key in x.workers
    ensures key in Happens(x, s).workers && x.workers[key].sent <= Happens(x, s).workers[key].sent
  {
    StoreHappens(x, s);
  }

  lemma ActivationIsNew(s: System, snapshot: Snapshot, fingerprint: string, token: Token, now: int)
    requires SystemOk(s) && Activate(s.db, snapshot, fingerprint, token, now).reply.Ok?
    ensures GenKey(snapshot.dep, Activate(s.db, snapshot, fingerprint, token, now).reply.value) !in s.seen
  {
    ActivationKeepsOpened(s.db, snapshot, fingerprint, token, now, s.ids, s.seen);
  }

  lemma LaunchKeepsSent(x: World, s: Step, key: GenKey)
    requires SystemOk(x.sys) && s.Launch? && Happenable(x, s) && key in x.workers && key in x.sys.seen
    ensures key in Happens(x, s).workers && Happens(x, s).workers[key] == x.workers[key]
  {
    var snapshot := x.launches[s.index];
    if Activate(x.sys.db, snapshot, s.fingerprint, s.newToken, s.now).reply.Ok? {
      ActivationIsNew(x.sys, snapshot, s.fingerprint, s.newToken, s.now);
    }
  }

  lemma OtherKeepsSent(x: World, s: Step, key: GenKey)
    requires (s.External? || s.Restart? || s.Observe?) && key in x.workers
    ensures key in Happens(x, s).workers && Happens(x, s).workers[key].sent == x.workers[key].sent
  {
  }

  /** The frames a worker has sent are only added to. */
  lemma StepKeepsSent(x: World, s: Step, key: GenKey)
    requires WorldOk(x) && Enabled(x, s) && key in x.workers
    ensures key in Happens(x, s).workers && x.workers[key].sent <= Happens(x, s).workers[key].sent
  {
    if Local(s) {
      LocalKeepsSent(x, s, key);
    } else if s.Launch? {
      LaunchKeepsSent(x, s, key);
    } else if s.Store? {
      StoreKeepsSent(x, s, key);
    } else {
      OtherKeepsSent(x, s, key);
    }
  }

  lemma {:induction false} PlayKeepsSent(x: World, steps: seq<Step>, key: GenKey)
    requires WorldOk(x) && Possible(x, steps) && key in x.workers
    ensures key in Play(x, steps).workers && x.workers[key].sent <= Play(x, steps).workers[key].sent
    decreases |steps|
  {
    if steps != [] {
      HappensKeeps(x, steps[0]);
      StepKeepsSent(x, steps[0], key);
      PlayKeepsSent(Happens(x, steps[0]), steps[1..], key);
    }
  }

  lemma WorkerOf(x: World, key: GenKey)
    requires WorldOk(x) && key in x.workers
    ensures SentOk(key, x.workers[key]) && PipesOk(x.workers[key])
  {
  }

  lemma SameSequence(key: GenKey, w: Worker, v: Worker, f: WireFrame, g: WireFrame)
    requires SentOk(key, w) && PipesOk(w) && SentOk(key, v) && PipesOk(v) && w.sent <= v.sent
    requires OnItsWay(w, f) && OnItsWay(v, g) && f.seqno == g.seqno
    ensures f == g
  {
    OnItsWayIsSent(key, w, f);
    OnItsWayIsSent(key, v, g);
  }

  /** No two different frames with the same generation and sequence ever reach the pipe, however far apart,
      even after a failed write let one through late. */
  lemma OneFrameASequence(x: World, steps: seq<Step>, key: GenKey, f: WireFrame, g: WireFrame)
    requires Reachable(x) && Possible(x, steps) && key in x.workers && key in Play(x, steps).workers
    requires OnItsWay(x.workers[key], f) && OnItsWay(Play(x, steps).workers[key], g) && f.seqno == g.seqno
    ensures f == g
  {
    hide WorldOk, SentOk, PipesOk, OnItsWay;
    ReachableOk(x);
    PlayKeepsSent(x, steps, key);
    PlayKeeps(x, steps);
    WorkerOf(x, key);
    WorkerOf(Play(x, steps), key);
    SameSequence(key, x.workers[key], Play(x, steps).workers[key], f, g);
  }
}
