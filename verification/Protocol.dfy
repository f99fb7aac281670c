/** The worker side of a commit (coordinator.go, session.go, wire.go), the daemon side (worker.go) and
    the two pipes between them, as steps of one world around the store. */
module Protocol {
  import opened Schema
  import opened Transactions
  import opened Lifecycle
  import opened Writes
  import opened History

  // ---- Frames on the wire ---------------------------------------------------------------

  datatype WireFrame = WireFrame(
    dep: DeploymentId, gen: nat, token: Token, seqno: nat, base: nat, next: Json,
    checkpoints: map<string, Json>, events: seq<WireEvent>, hash: Digest)

  /** HashTransactionFrame; Hashing.dfy shows that its byte stream determines these fields. */
  function HashFrame(f: WireFrame): Digest {
    Digest(f.dep, f.gen, f.token, f.seqno, f.base, f.next, f.checkpoints, f.events)
  }

  /** What a commit closure produced. */
  datatype Tx = Tx(next: Json, events: seq<WireEvent>, checkpoints: map<string, Json>)

  // ---- The coordinator's ACK filter -----------------------------------------------------

  datatype Expected = Expected(dep: DeploymentId, gen: nat, seqno: nat, hash: Digest)

  datatype Coord = Coord(
    seqno: nat, revision: nat, expected: Option<Expected>, pending: Option<Ack>, last: Option<Ack>,
    signal: bool, fatal: bool)

  predicate SameIdentity(e: Expected, a: Ack) {
    e.dep == a.dep && e.gen == a.gen && e.seqno == a.seqno && e.hash == a.hash
  }

  predicate SameAck(a: Ack, b: Ack) {
    SameIdentity(Expected(a.dep, a.gen, a.seqno, a.hash), b) && a.result == b.result
  }

  function Expect(c: Coord, f: WireFrame): Coord {
    c.(expected := Some(Expected(f.dep, f.gen, f.seqno, f.hash)), pending := None)
  }

  /** Why receiveTransactionAck refuses an ACK. */
  predicate RefusesAck(c: Coord, a: Ack) {
    && !(c.last.Some? && SameAck(c.last.value, a))
    && (c.expected.None? || !SameIdentity(c.expected.value, a) || (c.pending.Some? && !SameAck(c.pending.value, a)))
  }

  function Receive(c: Coord, a: Ack): Coord {
    if c.last.Some? && SameAck(c.last.value, a) then c
    else if RefusesAck(c, a) then c.(fatal := true)
    else if c.pending.Some? then c
    else c.(pending := Some(a), signal := true)
  }

  function Clear(c: Coord): Coord {
    c.(expected := None, pending := None)
  }

  // ---- One worker and its daemon ----------------------------------------------------------

  /** Where the daemon's frame loop stands. `Bound` holds the bindings it listed before the store call. */
  datatype Phase = Listening | Bound(frame: WireFrame, bindings: set<BindingKey>) | Answering(ack: Ack) | Draining | Halted

  /** The last five fields are history: the checkpoints durable at activation, the frames ever admitted to
      the wire, how many commits succeeded and how many took effect, and whether one was given up. */
  datatype Worker = Worker(
    token: Token, hello: Snapshot,
    state: Json, checkpoints: map<string, Json>, coord: Coord, inflight: Option<WireFrame>,
    poisoned: bool, blocked: Option<WireFrame>, up: seq<WireFrame>, down: seq<Ack>, phase: Phase,
    durable: map<string, Json>, sent: seq<WireFrame>, accepted: nat, applied: nat, abandoned: bool)

  datatype World = World(sys: System, launches: seq<Snapshot>, workers: map<GenKey, Worker>)

  const GENESIS := World(START, [], map[])

  datatype SendOutcome = Written | Broken

  datatype Step =
    | External(write: Write)
    | Restart(now: int)
    | Observe(dep: DeploymentId)
    | Launch(index: nat, fingerprint: string, newToken: Token, now: int)
    | Commit(key: GenKey, tx: Tx, send: SendOutcome)
    | Resend(key: GenKey, send: SendOutcome)
    | Flush(key: GenKey)
    | Poison(key: GenKey)
    | Inbound(key: GenKey)
    | AckReady(key: GenKey)
    | Abandon(key: GenKey)
    | Take(key: GenKey)
    | Store(key: GenKey, mutations: seq<Mutation>, deliveries: seq<OutboxDelivery>, now: int)
    | StoreFails(key: GenKey)
    | Answer(key: GenKey, arrives: bool, healthy: bool)
    | Drain(key: GenKey)
    | Halt(key: GenKey)

  // ---- Worker steps -----------------------------------------------------------------------

  function Greet(gen: nat, token: Token, hello: Snapshot, durable: map<string, Json>): Worker {
    Worker(token, hello, hello.state, hello.checkpoints, Coord(0, hello.revision, None, None, None, false, false), None,
           false, None, [], [], Listening, durable, [], 0, 0, false)
  }

  /** Session.Commit drops checkpoints that are already durable here. */
  function Filtered(w: Worker, tx: Tx): Tx {
    tx.(checkpoints := map s | s in tx.checkpoints && !(s in w.checkpoints && w.checkpoints[s] == tx.checkpoints[s]) :: tx.checkpoints[s])
  }

  predicate NoOp(w: Worker, tx: Tx) {
    tx.next == w.state && tx.events == [] && Filtered(w, tx).checkpoints == map[]
  }

  function MakeFrame(key: GenKey, w: Worker, tx: Tx): WireFrame {
    var f := WireFrame(key.dep, key.gen, w.token, w.coord.seqno + 1, w.coord.revision, tx.next, tx.checkpoints, tx.events, NoDigest);
    f.(hash := HashFrame(f))
  }

  /** Every failure past admission: the outcome is uncertain and the ACK is no longer expected. */
  function GiveUp(w: Worker): Worker {
    w.(coord := Clear(w.coord), inflight := None, abandoned := true)
  }

  /** workerCoordinator.Commit up to its wait. A broken write may still reach the pipe later. */
  function Send(key: GenKey, w: Worker, tx: Tx, send: SendOutcome): Worker {
    var f := MakeFrame(key, w, tx);
    var expecting := w.(coord := Expect(w.coord, f));
    if w.poisoned then GiveUp(expecting)
    else if send == Broken then GiveUp(expecting.(poisoned := true, blocked := Some(f), sent := w.sent + [f]))
    else expecting.(coord := expecting.coord.(seqno := f.seqno), inflight := Some(f), up := w.up + [f], sent := w.sent + [f])
  }

  /** Session.Commit up to that wait. */
  function Submit(key: GenKey, w: Worker, tx: Tx, send: SendOutcome): Worker {
    if NoOp(w, tx) then w else Send(key, w, Filtered(w, tx), send)
  }

  function Retry(w: Worker, send: SendOutcome): Worker
    requires w.inflight.Some?
  {
    if w.poisoned then GiveUp(w)
    else if send == Broken then GiveUp(w.(poisoned := true, blocked := w.inflight))
    else w.(up := w.up + [w.inflight.value])
  }

  /** The wait sees the ACK signal: acceptTransactionAck, then the session mirrors what was acknowledged. */
  function Wake(w: Worker): Worker
    requires w.inflight.Some?
  {
    var quiet := w.coord.(signal := false);
    if quiet.pending.None? then GiveUp(w.(coord := quiet)) else
    var ack := quiet.pending.value;
    var settled := quiet.(last := Some(ack), pending := None, expected := None);
    if ack.status == Refused then GiveUp(w.(coord := settled))
    else w.(coord := settled.(revision := ack.result), inflight := None, state := w.inflight.value.next,
            checkpoints := w.checkpoints + w.inflight.value.checkpoints, accepted := |w.sent|)
  }

  // ---- Daemon steps -----------------------------------------------------------------------

  predicate Genuine(key: GenKey, w: Worker, f: WireFrame) {
    f.dep == key.dep && f.gen == key.gen && f.token == w.token && f.hash == HashFrame(f)
  }

  /** The loop reads a frame, checks it and lists the bindings in a read of its own. */
  function Accepts(db: Db, key: GenKey, w: Worker): Worker
    requires w.up != []
  {
    var f := w.up[0];
    var taken := w.(up := w.up[1..]);
    if !Genuine(key, w, f) then taken.(phase := Halted)
    else taken.(phase := Bound(f, if f.events == [] then {} else ActiveBindings(db, key.dep)))
  }

  ghost predicate Lists(ms: seq<Mutation>, m: map<string, Json>) {
    && DistinctSources(ms)
    && (forall x :: x in ms ==> x.source in m && m[x.source] == x.value)
    && (forall s :: s in m ==> Mutation(s, m[s]) in ms)
  }

  ghost predicate Addresses(ds: seq<OutboxDelivery>, keys: set<BindingKey>, dep: DeploymentId) {
    && (forall i, j :: 0 <= i < j < |ds| ==> ds[i] != ds[j])
    && (forall d :: d in ds ==> BindingKey(dep, d.dest, d.revision) in keys)
    && (forall k :: k in keys ==> OutboxDelivery(k.dest, k.revision) in ds)
  }

  function OutboxEvents(f: WireFrame, ds: seq<OutboxDelivery>): seq<OutboxEvent> {
    seq(|f.events|, i requires 0 <= i < |f.events| =>
      OutboxEvent(Derived(f.dep, f.gen, f.seqno, i), f.events[i].id, f.events[i].message, ds))
  }

  function StoreFrame(f: WireFrame, ms: seq<Mutation>, ds: seq<OutboxDelivery>): Frame {
    Frame(f.dep, f.gen, f.token, f.seqno, f.base, f.next, ms, OutboxEvents(f, ds), f.hash)
  }

  /** After the store answered: send the ACK, or stop serving on an error. */
  function Stored(w: Worker, reply: Result<Ack>, tookEffect: bool): Worker {
    match reply
    case Ok(ack) => w.(phase := Answering(ack), applied := if tookEffect then w.applied + 1 else w.applied)
    case Err(_) => w.(phase := Halted)
  }

  // ---- The world --------------------------------------------------------------------------

  /** Steps that touch one worker and nothing durable. */
  predicate Local(s: Step) {
    s.Commit? || s.Resend? || s.Flush? || s.Poison? || s.Inbound? || s.AckReady? || s.Abandon?
      || s.Take? || s.StoreFails? || s.Answer? || s.Drain? || s.Halt?
  }

  /** When a local step can happen to its worker. */
  predicate Ready(w: Worker, s: Step) {
    match s
    case Commit(_, _, _) => w.inflight.None?
    case Resend(_, _) => w.inflight.Some?
    case Flush(_) => w.blocked.Some?
    case Inbound(_) => w.down != [] && !w.coord.fatal
    case AckReady(_) => w.inflight.Some? && w.coord.signal
    case Abandon(_) => w.inflight.Some?
    case Take(_) => w.phase.Listening? && w.up != []
    case StoreFails(_) => w.phase.Bound?
    case Answer(_, _, _) => w.phase.Answering?
    case Drain(_) => w.phase.Draining? && w.up != []
    case _ => true
  }

  /** The step names a launch, or a worker in the phase it needs. */
  predicate Happenable(x: World, s: Step) {
    && (s.Launch? ==> s.index < |x.launches|)
    && (Local(s) || s.Store? ==> s.key in x.workers)
    && (s.Store? ==> x.workers[s.key].phase.Bound?)
  }

  ghost predicate Enabled(x: World, s: Step) {
    && Happenable(x, s)
    && match s
    case External(write) => Writes.External(write) && !write.RecoverDaemon? && Allowed(x.sys, write)
    case Restart(_) => true
    case Observe(dep) => true
    case Launch(_, _, _, _) => true
    case Store(key, ms, ds, _) =>
      Lists(ms, x.workers[key].phase.frame.checkpoints) && Addresses(ds, x.workers[key].phase.bindings, key.dep)
    case _ => Ready(x.workers[s.key], s)
  }

  function LocalNext(db: Db, key: GenKey, w: Worker, s: Step): Worker
    requires Local(s)
  {
    match s
    case Commit(_, tx, send) => Submit(key, w, tx, send)
    case Resend(_, send) => if w.inflight.Some? then Retry(w, send) else w
    case Flush(_) => if w.blocked.Some? then w.(up := w.up + [w.blocked.value], blocked := None) else w
    case Poison(_) => w.(poisoned := true)
    case Inbound(_) => if w.down != [] then w.(coord := Receive(w.coord, w.down[0]), down := w.down[1..]) else w
    case AckReady(_) => if w.inflight.Some? then Wake(w) else w
    case Abandon(_) => GiveUp(w)
    case Take(_) => if w.up != [] then Accepts(db, key, w) else w
    case StoreFails(_) => w.(phase := Halted)
    case Answer(_, arrives, healthy) =>
      if !w.phase.Answering? then w else
      var next := if healthy then Listening else Draining;
      w.(phase := next, down := if arrives || healthy then w.down + [w.phase.ack] else w.down)
    case Drain(_) => if w.up != [] then w.(up := w.up[1..]) else w
    case Halt(_) => w.(phase := Halted)
  }

  function Happens(x: World, s: Step): World
    requires Happenable(x, s)
  {
    match s
    case External(write) => x.(sys := Next(x.sys, write))
    case Restart(now) =>
      x.(sys := Next(x.sys, RecoverDaemon(now)), launches := [],
         workers := map k | k in x.workers :: x.workers[k].(phase := Halted))
    case Observe(dep) =>
      (match ReadSnapshot(x.sys.db, dep)
       case Ok(snapshot) => x.(launches := x.launches + [snapshot])
       case Err(_) => x)
    case Launch(index, fingerprint, token, now) =>
      var snapshot := x.launches[index];
      var activated := Activate(x.sys.db, snapshot, fingerprint, token, now);
      var sys := Next(x.sys, OpenGeneration(snapshot, fingerprint, token, now));
      (match activated.reply
       case Ok(gen) =>
         x.(sys := sys,
            workers := x.workers[GenKey(snapshot.dep, gen) := Greet(gen, token, snapshot, CheckpointsOf(sys.db, snapshot.dep))])
       case Err(_) => x.(sys := sys))
    case Store(key, ms, ds, now) =>
      var f := StoreFrame(x.workers[key].phase.frame, ms, ds);
      x.(sys := Next(x.sys, ApplyFrame(f, now)),
         workers := x.workers[key := Stored(x.workers[key], Apply(x.sys.db, f, now).reply, TakesEffect(x.sys.db, f, now))])
    case _ => x.(workers := x.workers[s.key := LocalNext(x.sys.db, s.key, x.workers[s.key], s)])
  }
}
