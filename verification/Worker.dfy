/** The worker's own objects: the poisoned stream of wire.go, the coordinator and its wait of coordinator.go, the
    session and its transactions of session.go. A ghost `model` says where each stands in the protocol of Protocol.dfy. */
module Workers {
  import opened Schema
  import opened Lifecycle
  import opened Protocol
  import opened ProtocolTheorems

  // ---- The stream ---------------------------------------------------------------------------

  datatype WireError = WriteFailed | DeadlineExceeded

  /** How one write of the underlying pipe ends. A failed or overdue one may have reached it, or still may. */
  datatype Attempt = Completes | Errors | Overdue

  function SendResult(a: Attempt): SendOutcome {
    if a == Completes then Written else Broken
  }

  class Wire {
    var failure: Option<WireError>
    var pipe: seq<WireFrame>
    var late: Option<WireFrame>

    constructor ()
      ensures failure == None && pipe == [] && late == None
    {
      failure, pipe, late := None, [], None;
    }

    /** The first failure is the one that is remembered. */
    method FailWrite(error: WireError) returns (r: WireError)
      modifies this`failure
      ensures failure == Some(r) && r == if old(failure).Some? then old(failure).value else error
    {
      if failure.None? {
        failure := Some(error);
      }
      r := failure.value;
    }

    /** Once anything has failed, nothing more is written; so at most one write is ever left open. */
    method SendBytes(frame: WireFrame, attempt: Attempt) returns (error: Option<WireError>)
      modifies this
      ensures error == failure && (error.None? <==> old(failure).None? && attempt == Completes)
      ensures old(failure).Some? ==> failure == old(failure)
      ensures pipe == if error.None? then old(pipe) + [frame] else old(pipe)
      ensures late == if old(failure).None? && attempt != Completes then Some(frame) else old(late)
    {
      if failure.Some? {
        return failure;
      }
      if attempt == Completes {
        pipe := pipe + [frame];
        return None;
      }
      late := Some(frame);
      var e := FailWrite(if attempt == Errors then WriteFailed else DeadlineExceeded);
      error := Some(e);
    }
  }

  // ---- The wait for an acknowledgement ------------------------------------------------------------

  /** What the select of Commit can see, and the control reader's deliveries in between. */
  datatype Signal =
    | AckArrives(ack: Ack)
    | AckIsReady
    | RetryTick(attempt: Attempt)
    | FatalDone
    | StopRequest(parsed: bool, remaining: int)
    | StopDeadline

  datatype Verdict = Waiting | Committed(state: Json) | Uncertain

  /** A worker waiting, whether the stop deadline is armed, and what Commit returned. */
  datatype Wait = Wait(w: Worker, armed: bool, verdict: Verdict)

  function Hopeless(x: Wait): Wait {
    x.(w := GiveUp(x.w), verdict := Uncertain)
  }

  function Respond(x: Wait, s: Signal): Wait
    requires x.w.inflight.Some?
  {
    match s
    case AckArrives(ack) => if x.w.coord.fatal then x else x.(w := x.w.(coord := Receive(x.w.coord, ack)))
    case AckIsReady =>
      if !x.w.coord.signal then x
      else x.(w := Wake(x.w), verdict := if Succeeds(x.w) then Committed(x.w.inflight.value.next) else Uncertain)
    case RetryTick(attempt) =>
      var v := Retry(x.w, SendResult(attempt));
      x.(w := v, verdict := if v.inflight.None? then Uncertain else x.verdict)
    case FatalDone => if x.w.coord.fatal then Hopeless(x) else x
    case StopRequest(parsed, remaining) =>
      if x.armed then x else if !parsed || remaining <= 0 then Hopeless(x) else x.(armed := true)
    case StopDeadline => if x.armed then Hopeless(x) else x
  }

  function Waited(x: Wait, script: seq<Signal>): Wait
    decreases |script|
  {
    if script == [] || x.verdict != Waiting || x.w.inflight.None? then x
    else Waited(Respond(x, script[0]), script[1..])
  }

  /** Commit from admission to its return. */
  function Committing(key: GenKey, w: Worker, tx: Tx, attempt: Attempt, script: seq<Signal>): Wait {
    var v := Send(key, w, tx, SendResult(attempt));
    if v.inflight.None? then Wait(v, false, Uncertain) else Waited(Wait(v, false, Waiting), script)
  }

  /** The signals that end the wait: an ACK that is there, a retry that cannot be written, a refused ACK, a stop request
      without time left, and the end of the time a stop request gave. */
  ghost predicate Decides(s: Signal, armed: bool, ready: bool, fatal: bool, open: bool) {
    match s
    case AckArrives(_) => false
    case AckIsReady => ready
    case RetryTick(attempt) => !open || attempt != Completes
    case FatalDone => fatal
    case StopRequest(parsed, remaining) => !armed && (!parsed || remaining <= 0)
    case StopDeadline => armed
  }

  /** The ACK says what this one said, field by field. */
  ghost predicate Repeats(earlier: Option<Ack>, a: Ack) {
    && earlier.Some? && earlier.value.dep == a.dep && earlier.value.gen == a.gen && earlier.value.seqno == a.seqno
    && earlier.value.hash == a.hash && earlier.value.result == a.result
  }

  /** The ACK names the frame that is waited for, down to its hash. */
  ghost predicate Names(expected: Option<Expected>, a: Ack) {
    && expected.Some? && expected.value.dep == a.dep && expected.value.gen == a.gen
    && expected.value.seqno == a.seqno && expected.value.hash == a.hash
  }

  class Coordinator {
    const key: GenKey
    const token: Token
    const wire: Wire
    var seqno: nat
    var revision: nat
    var expectedAck: Option<Expected>
    var pendingAck: Option<Ack>
    var lastAck: Option<Ack>
    var ackReady: bool
    var fatal: bool
    ghost var model: Worker

    ghost function View(): Coord
      reads this
    {
      Coord(seqno, revision, expectedAck, pendingAck, lastAck, ackReady, fatal)
    }

    ghost predicate Valid()
      reads this, wire
    {
      && model.token == token && model.coord == View()
      && model.poisoned == wire.failure.Some? && model.up == wire.pipe && model.blocked == wire.late
    }

    constructor (key: GenKey, hello: Snapshot, token: Token, wire: Wire, ghost durable: map<string, Json>)
      requires wire.failure == None && wire.pipe == [] && wire.late == None
      ensures Valid() && this.key == key && this.wire == wire && model == Greet(key.gen, token, hello, durable)
    {
      this.key, this.token, this.wire := key, token, wire;
      seqno, revision, expectedAck, pendingAck, lastAck, ackReady, fatal := 0, hello.revision, None, None, None, false, false;
      model := Greet(key.gen, token, hello, durable);
    }

    method ExpectTransactionAck(f: WireFrame)
      modifies this`expectedAck, this`pendingAck
      ensures View() == Expect(old(View()), f)
    {
      expectedAck := Some(Expected(f.dep, f.gen, f.seqno, f.hash));
      pendingAck := None;
    }

    method ReceiveTransactionAck(ack: Ack) returns (failed: bool)
      modifies this`pendingAck, this`ackReady
      ensures failed == RefusesAck(old(View()), ack)
      ensures failed <==>
        && !Repeats(old(lastAck), ack)
        && (!Names(old(expectedAck), ack) || (old(pendingAck).Some? && !Repeats(old(pendingAck), ack)))
      ensures pendingAck == if failed || Repeats(old(lastAck), ack) || old(pendingAck).Some? then old(pendingAck) else Some(ack)
      ensures View() == if failed then old(View()) else Receive(old(View()), ack)
    {
      if lastAck.Some? && SameAck(lastAck.value, ack) {
        return false;
      }
      if expectedAck.None? {
        return true;
      }
      if !SameIdentity(expectedAck.value, ack) {
        return true;
      }
      if pendingAck.Some? {
        return !SameAck(pendingAck.value, ack);
      }
      pendingAck := Some(ack);
      ackReady := true;
      return false;
    }

    /** The control reader: a refused ACK is fatal, and ends it. */
    method ReadControl(ack: Ack)
      modifies this`pendingAck, this`ackReady, this`fatal
      ensures View() == if old(fatal) then old(View()) else Receive(old(View()), ack)
    {
      if fatal {
        return;
      }
      var failed := ReceiveTransactionAck(ack);
      if failed {
        fatal := true;
      }
    }

    method AcceptTransactionAck() returns (ack: Option<Ack>)
      modifies this`pendingAck, this`lastAck, this`expectedAck
      ensures ack == old(pendingAck)
      ensures View() == if ack.None? then old(View()) else old(View()).(last := ack, pending := None, expected := None)
    {
      ack := pendingAck;
      if ack.Some? {
        lastAck, pendingAck, expectedAck := ack, None, None;
      }
    }

    method ClearExpectedAck()
      modifies this`pendingAck, this`expectedAck
      ensures View() == Clear(old(View()))
    {
      expectedAck, pendingAck := None, None;
    }

    /** Every error past admission runs the deferred clean-up. */
    method Abandon() returns (verdict: Verdict)
      requires Valid()
      modifies this
      ensures Valid() && verdict == Uncertain && model == GiveUp(old(model)) && expectedAck.None? && pendingAck.None?
    {
      ClearExpectedAck();
      model := GiveUp(model);
      verdict := Uncertain;
    }

    /** The select sees that an ACK is ready. */
    method TakeAck(f: WireFrame) returns (verdict: Verdict)
      requires Valid() && model.inflight == Some(f) && ackReady
      modifies this
      ensures Valid() && Wait(model, false, verdict) == Respond(Wait(old(model), false, Waiting), AckIsReady)
      ensures verdict == if old(pendingAck).Some? && old(pendingAck).value.status != Refused then Committed(f.next) else Uncertain
      ensures revision == if verdict == Uncertain then old(revision) else old(pendingAck).value.result
      ensures expectedAck.None? && pendingAck.None? && !ackReady
    {
      ghost var woken := Wake(model);
      ackReady := false;
      var ack := AcceptTransactionAck();
      if ack.None? || ack.value.status == Refused {
        ClearExpectedAck();
        verdict := Uncertain;
      } else {
        revision := ack.value.result;
        verdict := Committed(f.next);
      }
      model := woken;
    }

    method Resend(f: WireFrame, attempt: Attempt) returns (verdict: Verdict)
      requires Valid() && model.inflight == Some(f)
      modifies this, wire
      ensures Valid() && Wait(model, false, verdict) == Respond(Wait(old(model), false, Waiting), RetryTick(attempt))
      ensures verdict == Waiting ==> model.inflight == Some(f)
      ensures wire.pipe == if old(wire.failure).None? && attempt == Completes then old(wire.pipe) + [f] else old(wire.pipe)
      ensures verdict == Waiting <==> old(wire.failure).None? && attempt == Completes
      ensures !verdict.Committed?
      ensures verdict != Waiting ==> expectedAck.None? && pendingAck.None?
    {
      ghost var retried := Retry(model, SendResult(attempt));
      var error := wire.SendBytes(f, attempt);
      verdict := Waiting;
      if error.Some? {
        ClearExpectedAck();
        verdict := Uncertain;
      }
      model := retried;
    }

    /** One turn of the select. */
    method Turn(f: WireFrame, signal: Signal, armed: bool) returns (stopping: bool, verdict: Verdict)
      requires Valid() && model.inflight == Some(f)
      modifies this, wire
      ensures Valid() && Wait(model, stopping, verdict) == Respond(Wait(old(model), armed, Waiting), signal)
      ensures verdict == Waiting <==> !Decides(signal, armed, old(ackReady), old(fatal), old(wire.failure).None?)
      ensures verdict.Committed? <==>
        signal.AckIsReady? && old(ackReady) && old(pendingAck).Some? && old(pendingAck).value.status != Refused
      ensures stopping == (armed || (signal.StopRequest? && signal.parsed && signal.remaining > 0))
      ensures verdict != Waiting ==> expectedAck.None? && pendingAck.None?
      ensures verdict == Waiting ==> model.inflight == Some(f)
    {
      hide Receive, RefusesAck, SameAck, Wake, Retry;
      stopping, verdict := armed, Waiting;
      match signal
      case AckArrives(ack) =>
        ReadControl(ack);
        model := model.(coord := View());
      case AckIsReady =>
        if ackReady {
          verdict := TakeAck(f);
        }
      case RetryTick(attempt) =>
        verdict := Resend(f, attempt);
      case FatalDone =>
        if fatal {
          verdict := Abandon();
        }
      case StopRequest(parsed, remaining) =>
        if !armed {
          if !parsed || remaining <= 0 {
            verdict := Abandon();
          } else {
            stopping := true;
          }
        }
      case StopDeadline =>
        if armed {
          verdict := Abandon();
        }
    }

    /** The loop of Commit; it is still waiting when the signals given run out. */
    method Await(f: WireFrame, script: seq<Signal>) returns (ghost armed: bool, verdict: Verdict)
      requires Valid() && model.inflight == Some(f)
      modifies this, wire
      ensures Valid() && Wait(model, armed, verdict) == Waited(Wait(old(model), false, Waiting), script)
    {
      var stopping := false;
      verdict := Waiting;
      ghost var start := Wait(model, false, Waiting);
      var i := 0;
      while i < |script| && verdict == Waiting
        invariant 0 <= i <= |script| && Valid()
        invariant verdict == Waiting ==> model.inflight == Some(f)
        invariant Waited(Wait(model, stopping, verdict), script[i..]) == Waited(start, script)
        decreases |script| - i
      {
        assert script[i..][0] == script[i] && script[i..][1..] == script[i + 1..];
        stopping, verdict := Turn(f, script[i], stopping);
        i := i + 1;
      }
      armed := stopping;
    }

    /** Commit past admission. */
    method Commit(tx: Tx, attempt: Attempt, script: seq<Signal>) returns (ghost armed: bool, verdict: Verdict)
      requires Valid() && model.inflight.None?
      modifies this, wire
      ensures Valid() && Wait(model, armed, verdict) == Committing(key, old(model), tx, attempt, script)
    {
      var f := WireFrame(key.dep, key.gen, token, seqno + 1, revision, tx.next, tx.checkpoints, tx.events, NoDigest);
      f := f.(hash := HashFrame(f));
      ghost var submitted := Send(key, model, tx, SendResult(attempt));
      ExpectTransactionAck(f);
      var error := wire.SendBytes(f, attempt);
      if error.Some? {
        ClearExpectedAck();
        model := submitted;
        return false, Uncertain;
      }
      seqno := f.seqno;
      model := submitted;
      armed, verdict := Await(f, script);
    }
  }

  // ---- Each turn is a step of the protocol ----------------------------------------------------------

  function StepOf(key: GenKey, s: Signal): Step {
    match s
    case AckArrives(_) => Inbound(key)
    case AckIsReady => AckReady(key)
    case RetryTick(attempt) => Resend(key, SendResult(attempt))
    case _ => Protocol.Abandon(key)
  }

  /** The control reader takes its ACKs from the pipe, in order. */
  predicate Delivers(w: Worker, s: Signal) {
    s.AckArrives? && !w.coord.fatal ==> w.down != [] && w.down[0] == s.ack
  }

  /** Whatever the wait sees either changes nothing or is a step its worker is ready for. */
  lemma TurnIsStep(db: Db, key: GenKey, x: Wait, s: Signal)
    requires x.w.inflight.Some? && Delivers(x.w, s)
    ensures var y := Respond(x, s); var step := StepOf(key, s);
      || y.w == x.w
      || (Ready(x.w, step) && LocalNext(db, key, x.w, step) == y.w.(down := if s.AckArrives? then x.w.down[1..] else x.w.down))
  {
    if s.RetryTick? {
      assert Respond(x, s).w == Retry(x.w, SendResult(s.attempt));
    }
  }

  /** What one turn can leave of the worker it found. */
  ghost predicate Turned(x: Wait, y: Wait)
    requires x.w.inflight.Some?
  {
    && (y.verdict == Waiting <==> y.w.inflight.Some?) && y.w.sent == x.w.sent
    && match y.verdict
       case Waiting => y.w == x.w.(coord := y.w.coord, up := y.w.up) && y.w.coord.revision == x.w.coord.revision
       case Committed(state) =>
         && y.w.abandoned == x.w.abandoned && y.w.accepted == |y.w.sent|
         && state == y.w.state == x.w.inflight.value.next
         && y.w.checkpoints == x.w.checkpoints + x.w.inflight.value.checkpoints
       case Uncertain =>
         && y.w.abandoned && y.w.accepted == x.w.accepted && y.w.coord.revision == x.w.coord.revision
         && y.w.state == x.w.state && y.w.checkpoints == x.w.checkpoints
  }

  lemma AckTurns(x: Wait)
    requires x.w.inflight.Some? && x.verdict == Waiting
    ensures Turned(x, Respond(x, AckIsReady))
  {
    if Succeeds(x.w) {
      WakeMirrors(x.w);
    } else if x.w.coord.signal {
      WakeGivesUp(x.w);
    }
  }

  lemma WakeMirrors(w: Worker)
    requires Succeeds(w)
    ensures var v := Wake(w);
      && v.inflight.None? && v.sent == w.sent && v.abandoned == w.abandoned && v.accepted == |v.sent|
      && v.state == w.inflight.value.next && v.checkpoints == w.checkpoints + w.inflight.value.checkpoints
  {
  }

  lemma WakeGivesUp(w: Worker)
    requires w.inflight.Some? && w.coord.signal && !Succeeds(w)
    ensures Wake(w) == w.(coord := Wake(w).coord, inflight := None, abandoned := true) && Wake(w).coord.revision == w.coord.revision
  {
  }

  lemma RetryTurns(x: Wait, attempt: Attempt)
    requires x.w.inflight.Some? && x.verdict == Waiting
    ensures Turned(x, Respond(x, RetryTick(attempt)))
  {
  }

  lemma OtherTurns(x: Wait, s: Signal)
    requires x.w.inflight.Some? && x.verdict == Waiting && !s.AckIsReady? && !s.RetryTick?
    ensures Turned(x, Respond(x, s))
  {
  }

  lemma OneTurn(x: Wait, s: Signal)
    requires x.w.inflight.Some? && x.verdict == Waiting
    ensures Turned(x, Respond(x, s))
  {
    match s
    case AckIsReady => AckTurns(x);
    case RetryTick(attempt) => RetryTurns(x, attempt);
    case _ => OtherTurns(x, s);
  }

  /** However many turns a wait takes, it leaves what its last one could have left on its own. */
  lemma {:induction false} WaitEnds(x: Wait, script: seq<Signal>)
    requires x.w.inflight.Some? && x.verdict == Waiting
    ensures Turned(x, Waited(x, script))
    decreases |script|
  {
    if script != [] {
      var y := Respond(x, script[0]);
      OneTurn(x, script[0]);
      if y.verdict == Waiting {
        WaitEnds(y, script[1..]);
      }
    }
  }

  // ---- Transactions and sessions --------------------------------------------------------------------

  /** What a commit closure works on. */
  class Transaction {
    const maxEvents: nat
    var state: Json
    var events: seq<WireEvent>
    var checkpoints: map<string, Json>

    ghost predicate Valid()
      reads this
    {
      |events| <= maxEvents && forall s :: s in checkpoints ==> s != ""
    }

    constructor (state: Json, maxEvents: nat)
      ensures Valid() && this.state == state && this.maxEvents == maxEvents && events == [] && checkpoints == map[]
    {
      this.state, this.maxEvents, events, checkpoints := state, maxEvents, [], map[];
    }

    /** `wellFormed` stands for the event's own field checks. */
    method Emit(e: WireEvent, wellFormed: bool) returns (ok: bool)
      requires Valid()
      modifies this`events
      ensures Valid() && (ok <==> |old(events)| < maxEvents && wellFormed)
      ensures events == if ok then old(events) + [e] else old(events)
    {
      if |events| >= maxEvents {
        return false;
      }
      if !wellFormed {
        return false;
      }
      events := events + [e];
      ok := true;
    }

    method Checkpoint(source: string, value: Json) returns (ok: bool)
      requires Valid()
      modifies this`checkpoints
      ensures Valid() && (ok <==> source != "")
      ensures checkpoints == if ok then old(checkpoints)[source := value] else old(checkpoints)
    {
      if source == "" {
        return false;
      }
      checkpoints := checkpoints[source := value];
      ok := true;
    }
  }

  /** The checkpoints of `changed` that `durable` does not already hold. */
  function Changed(durable: map<string, Json>, changed: map<string, Json>): map<string, Json> {
    map s | s in changed && !(s in durable && durable[s] == changed[s]) :: changed[s]
  }

  /** Everything a closure proposed is what the session already held. */
  ghost predicate Idle(tx: Tx, state: Json, checkpoints: map<string, Json>) {
    && tx.next == state && tx.events == []
    && forall s :: s in tx.checkpoints ==> s in checkpoints && checkpoints[s] == tx.checkpoints[s]
  }

  /** A frame holds the state and events of a closure, and of its checkpoints those that are new or differ. */
  ghost predicate Carries(f: WireFrame, tx: Tx, checkpoints: map<string, Json>) {
    && f.next == tx.next && f.events == tx.events
    && (forall s :: s in f.checkpoints <==> s in tx.checkpoints && (s !in checkpoints || checkpoints[s] != tx.checkpoints[s]))
    && forall s :: s in f.checkpoints ==> f.checkpoints[s] == tx.checkpoints[s]
  }

  /** The one frame a commit adds to those sent: the closure's, under the next number and on the known revision. */
  ghost predicate SendsOne(key: GenKey, w: Worker, tx: Tx, v: Worker) {
    && |v.sent| == |w.sent| + 1 && v.sent[..|w.sent|] == w.sent
    && var f := v.sent[|w.sent|];
    && f.dep == key.dep && f.gen == key.gen && f.token == w.token
    && f.seqno == w.coord.seqno + 1 && f.base == w.coord.revision
    && Carries(f, tx, w.checkpoints)
  }

  class Session {
    const committer: Coordinator
    var state: Json
    var checkpoints: map<string, Json>

    ghost predicate Valid()
      reads this, committer, committer.wire
    {
      && committer.Valid() && committer.model.inflight.None?
      && committer.model.state == state && committer.model.checkpoints == checkpoints
    }

    constructor (committer: Coordinator, hello: Snapshot)
      requires committer.Valid() && committer.model.inflight.None?
      requires committer.model.state == hello.state && committer.model.checkpoints == hello.checkpoints
      ensures Valid() && this.committer == committer
    {
      this.committer, state, checkpoints := committer, hello.state, hello.checkpoints;
    }

    /** Checkpoint reads this process's mirror of a durable checkpoint. */
    method Checkpoint(source: string) returns (found: Option<Json>)
      requires Valid()
      ensures found == if source != "" && source in committer.model.checkpoints then Some(committer.model.checkpoints[source]) else None
    {
      if source == "" || source !in checkpoints {
        return None;
      }
      found := Some(checkpoints[source]);
    }

    /** The loop that deletes identical checkpoints from the transaction. */
    method DropUnchanged(changed: map<string, Json>) returns (kept: map<string, Json>)
      ensures kept == Changed(checkpoints, changed)
      ensures forall s :: s in kept <==> s in changed && (s !in checkpoints || checkpoints[s] != changed[s])
      ensures forall s :: s in kept ==> kept[s] == changed[s]
    {
      kept := changed;
      var todo := changed.Keys;
      while todo != {}
        invariant todo <= changed.Keys
        invariant kept == map s | s in changed && (s in todo || !(s in checkpoints && checkpoints[s] == changed[s])) :: changed[s]
        decreases |todo|
      {
        var source :| source in todo;
        if source in checkpoints && changed[source] == checkpoints[source] {
          kept := kept - {source};
        }
        todo := todo - {source};
      }
    }

    /** The loop that mirrors what was acknowledged. */
    method Mirror(changed: map<string, Json>)
      modifies this`checkpoints
      ensures checkpoints == old(checkpoints) + changed
    {
      ghost var before := checkpoints;
      var todo := changed.Keys;
      while todo != {}
        invariant todo <= changed.Keys
        invariant checkpoints == before + (map s | s in changed && s !in todo :: changed[s])
        decreases |todo|
      {
        var source :| source in todo;
        MirrorOne(before, changed, todo, source);
        checkpoints := checkpoints[source := changed[source]];
        todo := todo - {source};
      }
      assert (map s | s in changed && s !in {} :: changed[s]) == changed;
    }

    static lemma MirrorOne(before: map<string, Json>, changed: map<string, Json>, todo: set<string>, source: string)
      requires source in todo && todo <= changed.Keys
      ensures (before + (map s | s in changed && s !in todo :: changed[s]))[source := changed[source]]
        == before + (map s | s in changed && s !in todo - {source} :: changed[s])
    {
    }

    /** Commit with what its closure produced, if it returned without an error. `admitted` stands for the context,
        the frame's field checks, its size and the callback scope: all of them before admission. */
    method Commit(closure: Option<Tx>, admitted: bool, attempt: Attempt, script: seq<Signal>)
      returns (ghost armed: bool, verdict: Verdict, silent: bool)
      requires Valid()
      modifies this, committer, committer.wire
      ensures committer.Valid()
      ensures silent ==> committer.model == old(committer.model)
      ensures silent <==> closure.None? || !admitted || NoOp(old(committer.model), closure.value)
      ensures !silent ==>
        Wait(committer.model, armed, verdict)
        == Committing(committer.key, old(committer.model), Filtered(old(committer.model), closure.value), attempt, script)
      ensures silent || verdict != Waiting ==> Valid()
      ensures silent <==> closure.None? || !admitted || Idle(closure.value, old(state), old(checkpoints))
      ensures !silent && old(committer.model).poisoned ==> committer.model.sent == old(committer.model).sent
      ensures !silent && !old(committer.model).poisoned ==>
        SendsOne(committer.key, old(committer.model), closure.value, committer.model)
      ensures verdict.Committed? ==> !silent && closure.Some? && verdict.state == closure.value.next
      ensures verdict.Committed? ==> state == closure.value.next && checkpoints == old(checkpoints) + closure.value.checkpoints
      ensures verdict.Committed? || (state == old(state) && checkpoints == old(checkpoints))
    {
      hide SendsOne, Idle, Committing;
      armed, verdict, silent := false, Uncertain, true;
      if closure.None? {
        return;
      }
      var kept := DropUnchanged(closure.value.checkpoints);
      var tx := closure.value.(checkpoints := kept);
      assert tx == Filtered(committer.model, closure.value);
      DropsIdle(committer.model, closure.value);
      if tx.next == state && tx.events == [] && tx.checkpoints == map[] {
        return;
      }
      if !admitted {
        return;
      }
      silent := false;
      ghost var before := committer.model;
      armed, verdict := committer.Commit(tx, attempt, script);
      CommitEnds(committer.key, before, tx, attempt, script);
      CommitSends(committer.key, before, closure.value, attempt, script);
      if verdict.Committed? {
        state := verdict.state;
        Mirror(kept);
        KeptSuffice(old(checkpoints), closure.value.checkpoints, kept);
      }
    }
  }

  /** Laying the kept checkpoints over the mirror lays all of them over it. */
  lemma KeptSuffice(checkpoints: map<string, Json>, changed: map<string, Json>, kept: map<string, Json>)
    requires forall s :: s in kept <==> s in changed && (s !in checkpoints || checkpoints[s] != changed[s])
    requires forall s :: s in kept ==> kept[s] == changed[s]
    ensures checkpoints + kept == checkpoints + changed
  {
  }

  /** Session.Commit sends nothing exactly when there is nothing to say. */
  lemma DropsIdle(w: Worker, tx: Tx)
    ensures NoOp(w, tx) <==> Idle(tx, w.state, w.checkpoints)
  {
    var kept := Filtered(w, tx).checkpoints;
    if s :| s in tx.checkpoints && !(s in w.checkpoints && w.checkpoints[s] == tx.checkpoints[s]) {
      assert s in kept;
    }
  }

  /** A commit sends one frame, and that frame carries what its closure proposed; a poisoned wire takes none. */
  lemma CommitSends(key: GenKey, w: Worker, tx: Tx, attempt: Attempt, script: seq<Signal>)
    requires w.inflight.None?
    ensures var x := Committing(key, w, Filtered(w, tx), attempt, script);
      if w.poisoned then x.w.sent == w.sent else SendsOne(key, w, tx, x.w)
  {
    var v := Send(key, w, Filtered(w, tx), SendResult(attempt));
    if !w.poisoned {
      assert SendsOne(key, w, tx, v);
    }
    if v.inflight.Some? {
      WaitEnds(Wait(v, false, Waiting), script);
    }
  }

  /** What a commit leaves of the session's mirror: everything it proposed when it succeeded, nothing of it otherwise. */
  lemma CommitEnds(key: GenKey, w: Worker, tx: Tx, attempt: Attempt, script: seq<Signal>)
    requires w.inflight.None?
    ensures var x := Committing(key, w, tx, attempt, script);
      && (x.verdict == Waiting <==> x.w.inflight.Some?)
      && x.w.state == (if x.verdict.Committed? then tx.next else w.state)
      && x.w.checkpoints == (if x.verdict.Committed? then w.checkpoints + tx.checkpoints else w.checkpoints)
      && (x.verdict.Committed? ==> x.verdict.state == tx.next && x.w.abandoned == w.abandoned && x.w.accepted == |x.w.sent|)
      && (x.verdict == Uncertain ==> x.w.abandoned && x.w.accepted == w.accepted && x.w.coord.revision == w.coord.revision)
  {
    var v := Send(key, w, tx, SendResult(attempt));
    if v.inflight.Some? {
      WaitEnds(Wait(v, false, Waiting), script);
    }
  }
}
