/** The invariant of every run of the commit protocol, one clause at a time. */
module ProtocolSafety {
  import opened Schema
  import opened Protocol

  // ---- What the frames sent so far amount to ------------------------------------------------

  function StateAt(initial: Json, sent: seq<WireFrame>, n: nat): Json
    requires n <= |sent|
  {
    if n == 0 then initial else sent[n - 1].next
  }

  function SourcesAt(initial: map<string, Json>, sent: seq<WireFrame>, n: nat): map<string, Json>
    requires n <= |sent|
  {
    if n == 0 then initial else SourcesAt(initial, sent, n - 1) + sent[n - 1].checkpoints
  }

  lemma {:induction false} SourcesAppend(initial: map<string, Json>, sent: seq<WireFrame>, f: WireFrame, n: nat)
    requires n <= |sent|
    ensures SourcesAt(initial, sent + [f], n) == SourcesAt(initial, sent, n)
  {
    if n > 0 {
      SourcesAppend(initial, sent, f, n - 1);
    }
  }

  // ---- Clauses about one worker -------------------------------------------------------------

  ghost predicate SentOk(key: GenKey, w: Worker) {
    forall i :: 0 <= i < |w.sent| ==> Genuine(key, w, w.sent[i]) && w.sent[i].seqno == i + 1
  }

  /** The frame is the one admitted under its sequence number. */
  ghost predicate Member(w: Worker, f: WireFrame) {
    1 <= f.seqno <= |w.sent| && w.sent[f.seqno - 1] == f
  }

  ghost predicate PipesOk(w: Worker) {
    && (forall i :: 0 <= i < |w.up| ==> Member(w, w.up[i]))
    && (w.blocked.Some? ==> w.poisoned && Member(w, w.blocked.value))
    && (w.phase.Bound? ==> Member(w, w.phase.frame))
  }

  ghost predicate CountsOk(w: Worker) {
    && w.coord.seqno <= |w.sent| <= w.coord.seqno + 1
    && (!w.poisoned ==> |w.sent| == w.coord.seqno)
    && w.accepted <= w.applied <= |w.sent|
    && (w.inflight.Some? ==>
          |w.sent| == w.coord.seqno && w.accepted < |w.sent| && w.inflight.value == w.sent[|w.sent| - 1])
  }

  /** An applied frame was based on the revision before it; frames after the last success share its revision. */
  ghost predicate BasesOk(w: Worker) {
    && (forall i :: 0 <= i < w.applied && i < |w.sent| ==> w.sent[i].base == w.hello.revision + i)
    && (forall i :: w.accepted <= i < |w.sent| ==> w.sent[i].base == w.hello.revision + w.accepted)
  }

  ghost predicate AckOk(key: GenKey, w: Worker, a: Ack) {
    && 1 <= a.seqno <= w.applied && a.seqno <= |w.sent|
    && a == Ack(key.dep, key.gen, a.seqno, w.sent[a.seqno - 1].hash, w.hello.revision + a.seqno, Accepted)
  }

  ghost predicate AcksOk(key: GenKey, w: Worker) {
    && (forall i :: 0 <= i < |w.down| ==> AckOk(key, w, w.down[i]))
    && (w.phase.Answering? ==> AckOk(key, w, w.phase.ack))
    && (w.coord.pending.Some? ==> AckOk(key, w, w.coord.pending.value))
    && (w.coord.last.Some? ==> AckOk(key, w, w.coord.last.value) && w.coord.last.value.seqno == w.accepted)
  }

  ghost predicate ExpectsOk(w: Worker) {
    && (w.coord.expected.Some? <==> w.inflight.Some?)
    && (w.inflight.Some? ==>
          w.coord.expected.value
          == Expected(w.inflight.value.dep, w.inflight.value.gen, w.inflight.value.seqno, w.inflight.value.hash))
    && (w.coord.pending.Some? ==> w.inflight.Some? && w.coord.pending.value.seqno == w.inflight.value.seqno)
  }

  /** The session mirrors exactly the commits that succeeded. */
  ghost predicate MirrorOk(w: Worker)
    requires w.accepted <= |w.sent|
  {
    && w.coord.revision == w.hello.revision + w.accepted
    && w.state == StateAt(w.hello.state, w.sent, w.accepted)
    && w.checkpoints == SourcesAt(w.hello.checkpoints, w.sent, w.accepted)
  }

  /** Sequence numbers between the worker and the store, oldest first. */
  function Pipeline(w: Worker): seq<nat> {
    seq(|w.down|, i requires 0 <= i < |w.down| => w.down[i].seqno)
    + (match w.phase case Bound(f, _) => [f.seqno] case Answering(a) => [a.seqno] case _ => [])
    + seq(|w.up|, i requires 0 <= i < |w.up| => w.up[i].seqno)
  }

  /** Oldest first, nothing below `low` or above `high`; once the answer is in, nothing below `high`. */
  predicate Orderly(p: seq<nat>, low: nat, high: nat, answered: bool) {
    && (forall i, j :: 0 <= i < j < |p| ==> p[i] <= p[j])
    && (forall i :: 0 <= i < |p| ==> low <= p[i] <= high)
    && (answered ==> forall i :: 0 <= i < |p| ==> p[i] == high)
  }

  /** As long as no commit was given up. */
  ghost predicate CalmOk(w: Worker) {
    && !w.coord.fatal && w.blocked.None?
    && (w.coord.signal <==> w.coord.pending.Some?)
    && (w.coord.last.Some? <==> w.accepted > 0)
    && |w.sent| == w.accepted + (if w.inflight.Some? then 1 else 0)
    && Orderly(Pipeline(w), w.accepted, |w.sent|, w.coord.pending.Some?)
  }

  ghost predicate BasicOk(key: GenKey, w: Worker) {
    && SentOk(key, w) && PipesOk(w) && CountsOk(w) && BasesOk(w) && AcksOk(key, w) && ExpectsOk(w) && MirrorOk(w)
  }

  ghost predicate WorkerOk(key: GenKey, w: Worker) {
    BasicOk(key, w) && (!w.abandoned ==> CalmOk(w))
  }

  // ---- Giving up ----------------------------------------------------------------------------

  lemma GiveUpKeeps(key: GenKey, w: Worker)
    requires BasicOk(key, w)
    ensures WorkerOk(key, GiveUp(w))
  {
  }

  // ---- Commit -------------------------------------------------------------------------------

  /** A frame admitted to the wire extends the history by one. */
  ghost function Admit(w: Worker, f: WireFrame): Worker {
    w.(sent := w.sent + [f])
  }

  lemma AdmitSent(key: GenKey, w: Worker, f: WireFrame)
    requires BasicOk(key, w) && Genuine(key, w, f) && f.seqno == |w.sent| + 1 && f.base == w.coord.revision
    ensures SentOk(key, Admit(w, f)) && PipesOk(Admit(w, f)) && BasesOk(Admit(w, f)) && AcksOk(key, Admit(w, f))
  {
  }

  lemma AdmitMirror(w: Worker, f: WireFrame)
    requires w.accepted <= |w.sent| && MirrorOk(w)
    ensures MirrorOk(Admit(w, f))
  {
    SourcesAppend(w.hello.checkpoints, w.sent, f, w.accepted);
  }

  /** The worker right after admission, before it is known whether the write succeeded. */
  lemma AdmittedOk(key: GenKey, w: Worker, tx: Tx)
    requires BasicOk(key, w) && w.inflight.None? && !w.poisoned
    ensures var f := MakeFrame(key, w, Filtered(w, tx)); var v := Admit(w, f);
      && SentOk(key, v) && PipesOk(v) && BasesOk(v) && AcksOk(key, v) && MirrorOk(v) && Member(v, f)
      && |v.sent| == w.coord.seqno + 1 == f.seqno && v.accepted <= v.applied < |v.sent|
  {
    var f := MakeFrame(key, w, Filtered(w, tx));
    AdmitSent(key, w, f);
    AdmitMirror(w, f);
  }

  lemma WrittenOk(key: GenKey, v: Worker, u: Worker, f: WireFrame)
    requires SentOk(key, v) && PipesOk(v) && BasesOk(v) && AcksOk(key, v) && Member(v, f)
    requires v.accepted <= v.applied < |v.sent| == f.seqno && MirrorOk(v) && !v.poisoned
    requires u == v.(coord := Expect(v.coord, f).(seqno := f.seqno), inflight := Some(f), up := v.up + [f])
    ensures BasicOk(key, u)
  {
  }

  lemma SubmitWritten(key: GenKey, w: Worker, tx: Tx)
    requires BasicOk(key, w) && w.inflight.None? && !w.poisoned
    ensures BasicOk(key, Submit(key, w, tx, Written))
  {
    if !NoOp(w, tx) {
      var f := MakeFrame(key, w, Filtered(w, tx));
      AdmittedOk(key, w, tx);
      WrittenOk(key, Admit(w, f), Submit(key, w, tx, Written), f);
    }
  }

  lemma BrokenOk(key: GenKey, v: Worker, u: Worker, f: WireFrame)
    requires SentOk(key, v) && PipesOk(v) && BasesOk(v) && AcksOk(key, v) && Member(v, f)
    requires v.accepted <= v.applied < |v.sent| == f.seqno && |v.sent| == v.coord.seqno + 1 && MirrorOk(v)
    requires u == v.(coord := Clear(Expect(v.coord, f)), inflight := None, poisoned := true, blocked := Some(f), abandoned := true)
    ensures BasicOk(key, u)
  {
  }

  lemma SubmitBroken(key: GenKey, w: Worker, tx: Tx)
    requires BasicOk(key, w) && w.inflight.None? && !w.poisoned && !NoOp(w, tx)
    ensures BasicOk(key, Submit(key, w, tx, Broken)) && Submit(key, w, tx, Broken).abandoned
  {
    var f := MakeFrame(key, w, Filtered(w, tx));
    AdmittedOk(key, w, tx);
    BrokenOk(key, Admit(w, f), Submit(key, w, tx, Broken), f);
  }

  lemma OrderlyAppend(p: seq<nat>, low: nat, high: nat)
    requires Orderly(p, low, high, false) && high <= low + 1
    ensures Orderly(p + [low + 1], low, low + 1, false)
  {
  }

  lemma SubmitCalm(key: GenKey, w: Worker, tx: Tx)
    requires WorkerOk(key, w) && w.inflight.None? && !w.poisoned && !w.abandoned
    ensures CalmOk(Submit(key, w, tx, Written))
  {
    if !NoOp(w, tx) {
      var f := MakeFrame(key, w, Filtered(w, tx));
      assert Pipeline(Submit(key, w, tx, Written)) == Pipeline(w) + [f.seqno];
      OrderlyAppend(Pipeline(w), w.accepted, |w.sent|);
    }
  }

  lemma SubmitKeeps(key: GenKey, w: Worker, tx: Tx, send: SendOutcome)
    requires WorkerOk(key, w) && w.inflight.None?
    ensures WorkerOk(key, Submit(key, w, tx, send))
  {
    if NoOp(w, tx) {
    } else if w.poisoned {
      GiveUpKeeps(key, w);
      assert Submit(key, w, tx, send) == GiveUp(w);
    } else if send == Broken {
      SubmitBroken(key, w, tx);
    } else {
      SubmitWritten(key, w, tx);
      if !w.abandoned {
        SubmitCalm(key, w, tx);
      }
    }
  }

  // ---- Resending ----------------------------------------------------------------------------

  lemma OrderlyRepeat(p: seq<nat>, low: nat, high: nat, answered: bool)
    requires Orderly(p, low, high, answered) && low <= high
    ensures Orderly(p + [high], low, high, answered)
  {
  }

  lemma RetryCalm(key: GenKey, w: Worker)
    requires CalmOk(w) && w.inflight.Some? && w.inflight.value.seqno == |w.sent| && !w.poisoned
    ensures CalmOk(Retry(w, Written))
  {
    assert Pipeline(Retry(w, Written)) == Pipeline(w) + [|w.sent|];
    OrderlyRepeat(Pipeline(w), w.accepted, |w.sent|, w.coord.pending.Some?);
  }

  lemma InflightMember(key: GenKey, w: Worker)
    requires SentOk(key, w) && CountsOk(w) && w.inflight.Some?
    ensures Member(w, w.inflight.value) && w.inflight.value.seqno == |w.sent|
  {
    assert w.sent[|w.sent| - 1].seqno == |w.sent|;
  }

  lemma RetryBasic(key: GenKey, w: Worker, send: SendOutcome)
    requires BasicOk(key, w) && w.inflight.Some? && !w.poisoned
    ensures BasicOk(key, if send == Broken then w.(poisoned := true, blocked := w.inflight) else Retry(w, send))
  {
    InflightMember(key, w);
    if send == Broken {
      RetryPipes(w, w.(poisoned := true, blocked := w.inflight));
    } else {
      RetryPipes(w, Retry(w, send));
    }
  }

  lemma RetryPipes(w: Worker, v: Worker)
    requires PipesOk(w) && CountsOk(w) && w.inflight.Some? && Member(w, w.inflight.value)
    requires v == w.(poisoned := true, blocked := w.inflight) || v == w.(up := w.up + [w.inflight.value])
    ensures PipesOk(v) && CountsOk(v)
  {
  }

  lemma RetryKeeps(key: GenKey, w: Worker, send: SendOutcome)
    requires WorkerOk(key, w) && w.inflight.Some?
    ensures WorkerOk(key, Retry(w, send))
  {
    if w.poisoned {
      GiveUpKeeps(key, w);
    } else {
      RetryBasic(key, w, send);
      if send == Broken {
        GiveUpKeeps(key, w.(poisoned := true, blocked := w.inflight));
      } else if !w.abandoned {
        InflightMember(key, w);
        RetryCalm(key, w);
      }
    }
  }

  // ---- Inbound ACKs ---------------------------------------------------------------------------

  /** Duplicates of the last accepted ACK and of the awaited one are absorbed; nothing is ever refused. */
  lemma CalmNeverRefuses(key: GenKey, w: Worker)
    requires WorkerOk(key, w) && !w.abandoned && w.down != []
    ensures !RefusesAck(w.coord, w.down[0])
  {
    var a := w.down[0];
    assert Pipeline(w)[0] == a.seqno;
    assert AckOk(key, w, a);
    if a.seqno == w.accepted {
      assert w.coord.last.Some? && AckOk(key, w, w.coord.last.value);
    } else {
      assert w.inflight.Some? && a.seqno == |w.sent|;
    }
  }

  ghost function Received(w: Worker): Worker
    requires w.down != []
  {
    w.(coord := Receive(w.coord, w.down[0]), down := w.down[1..])
  }

  lemma InboundAcks(key: GenKey, w: Worker)
    requires AcksOk(key, w) && w.down != []
    ensures AcksOk(key, Received(w))
  {
    assert AckOk(key, w, w.down[0]);
  }

  lemma InboundExpects(w: Worker)
    requires ExpectsOk(w) && w.down != []
    ensures ExpectsOk(Received(w))
  {
  }

  lemma InboundRest(key: GenKey, w: Worker)
    requires SentOk(key, w) && PipesOk(w) && CountsOk(w) && BasesOk(w) && MirrorOk(w) && w.down != []
    ensures SentOk(key, Received(w)) && PipesOk(Received(w)) && CountsOk(Received(w)) && BasesOk(Received(w)) && MirrorOk(Received(w))
  {
  }

  lemma InboundCalm(w: Worker)
    requires CalmOk(w) && ExpectsOk(w) && w.down != [] && !RefusesAck(w.coord, w.down[0])
    requires w.coord.last.Some? ==> w.coord.last.value.seqno == w.accepted
    requires w.inflight.Some? ==> w.inflight.value.seqno == |w.sent|
    ensures CalmOk(Received(w))
  {
    assert Pipeline(Received(w)) == Pipeline(w)[1..];
    assert Pipeline(w)[0] == w.down[0].seqno;
    OrderlyTail(Pipeline(w), w.accepted, |w.sent|, w.coord.pending.Some?);
  }

  lemma OrderlyTail(p: seq<nat>, low: nat, high: nat, answered: bool)
    requires Orderly(p, low, high, answered) && p != []
    ensures Orderly(p[1..], low, high, answered || p[0] == high)
  {
  }

  lemma InboundKeeps(key: GenKey, w: Worker)
    requires WorkerOk(key, w) && w.down != []
    ensures WorkerOk(key, Received(w))
  {
    InboundAcks(key, w);
    InboundExpects(w);
    InboundRest(key, w);
    if !w.abandoned {
      CalmNeverRefuses(key, w);
      if w.inflight.Some? {
        InflightMember(key, w);
      }
      InboundCalm(w);
    }
  }

  // ---- The wait ends --------------------------------------------------------------------------

  /** An ACK for the frame in flight means every earlier frame was acknowledged too. */
  lemma PendingIsNext(key: GenKey, w: Worker)
    requires BasicOk(key, w) && w.inflight.Some? && w.coord.pending.Some?
    ensures w.coord.pending.value.seqno == |w.sent| == w.accepted + 1 && w.applied == |w.sent|
    ensures w.coord.pending.value.result == w.hello.revision + |w.sent| && w.coord.pending.value.status == Accepted
  {
    assert AckOk(key, w, w.coord.pending.value);
    assert w.sent[|w.sent| - 1].seqno == |w.sent|;
    assert w.sent[|w.sent| - 1].base == w.hello.revision + (|w.sent| - 1);
  }

  lemma WakeBasic(key: GenKey, w: Worker)
    requires BasicOk(key, w) && w.inflight.Some? && w.coord.pending.Some?
    ensures BasicOk(key, Wake(w))
  {
    PendingIsNext(key, w);
  }

  lemma WakeCalm(key: GenKey, w: Worker)
    requires WorkerOk(key, w) && !w.abandoned && w.inflight.Some? && w.coord.signal
    ensures CalmOk(Wake(w)) && w.coord.pending.Some?
  {
    PendingIsNext(key, w);
    assert Pipeline(Wake(w)) == Pipeline(w);
  }

  lemma WakeKeeps(key: GenKey, w: Worker)
    requires WorkerOk(key, w) && w.inflight.Some? && w.coord.signal
    ensures WorkerOk(key, Wake(w))
  {
    if w.coord.pending.None? {
      GiveUpKeeps(key, w.(coord := w.coord.(signal := false)));
    } else {
      WakeBasic(key, w);
      if !w.abandoned {
        WakeCalm(key, w);
      }
    }
  }

  // ---- Pipes and the daemon's loop --------------------------------------------------------------

  lemma FlushKeeps(key: GenKey, w: Worker)
    requires WorkerOk(key, w) && w.blocked.Some?
    ensures WorkerOk(key, w.(up := w.up + [w.blocked.value], blocked := None))
  {
  }

  lemma PoisonKeeps(key: GenKey, w: Worker)
    requires WorkerOk(key, w)
    ensures WorkerOk(key, w.(poisoned := true))
  {
    assert Pipeline(w.(poisoned := true)) == Pipeline(w);
  }

  lemma DropsPipes(w: Worker, v: Worker)
    requires PipesOk(w) && v == w.(phase := v.phase, up := v.up)
    requires v.phase.Bound? ==> Member(w, v.phase.frame)
    requires forall i :: 0 <= i < |v.up| ==> v.up[i] in w.up
    ensures PipesOk(v)
  {
  }

  lemma DropsAcks(key: GenKey, w: Worker, v: Worker)
    requires AcksOk(key, w) && v == w.(phase := v.phase, up := v.up) && !v.phase.Answering?
    ensures AcksOk(key, v)
  {
  }

  lemma DropsBasic(key: GenKey, w: Worker, v: Worker)
    requires BasicOk(key, w) && v == w.(phase := v.phase, up := v.up)
    requires !v.phase.Answering? && (v.phase.Bound? ==> Member(w, v.phase.frame))
    requires forall i :: 0 <= i < |v.up| ==> v.up[i] in w.up
    ensures BasicOk(key, v)
  {
    DropsPipes(w, v);
    DropsAcks(key, w, v);
    hide PipesOk, AcksOk;
  }

  lemma AcceptsHead(db: Db, key: GenKey, w: Worker)
    requires SentOk(key, w) && PipesOk(w) && w.up != []
    ensures Member(w, w.up[0]) && Accepts(db, key, w) == w.(up := w.up[1..], phase := Accepts(db, key, w).phase)
    ensures Accepts(db, key, w).phase.Bound? && Accepts(db, key, w).phase.frame == w.up[0]
  {
    assert Member(w, w.up[0]);
  }

  lemma TakeBasic(db: Db, key: GenKey, w: Worker)
    requires BasicOk(key, w) && w.up != []
    ensures BasicOk(key, Accepts(db, key, w)) && Accepts(db, key, w).phase.Bound? && Accepts(db, key, w).phase.frame == w.up[0]
  {
    AcceptsHead(db, key, w);
    DropsBasic(key, w, Accepts(db, key, w));
  }

  lemma TakeKeeps(db: Db, key: GenKey, w: Worker)
    requires WorkerOk(key, w) && w.phase.Listening? && w.up != []
    ensures WorkerOk(key, Accepts(db, key, w))
  {
    TakeBasic(db, key, w);
    hide BasicOk;
    assert Pipeline(Accepts(db, key, w)) == Pipeline(w);
  }

  lemma OrderlyRemove(a: seq<nat>, x: seq<nat>, b: seq<nat>, low: nat, high: nat, answered: bool)
    requires Orderly(a + x + b, low, high, answered)
    ensures Orderly(a + b, low, high, answered)
  {
    var p := a + x + b;
    var q := a + b;
    forall i, j | 0 <= i < j < |q| ensures q[i] <= q[j] {
      assert q[i] == p[if i < |a| then i else i + |x|];
      assert q[j] == p[if j < |a| then j else j + |x|];
    }
    forall i | 0 <= i < |q| ensures low <= q[i] <= high && (answered ==> q[i] == high) {
      assert q[i] == p[if i < |a| then i else i + |x|];
    }
  }

  /** A worker that differs only in having less between it and the store. */
  lemma DropsKeep(key: GenKey, w: Worker, v: Worker, a: seq<nat>, x: seq<nat>, b: seq<nat>)
    requires WorkerOk(key, w) && Pipeline(w) == a + x + b && Pipeline(v) == a + b
    requires v == w.(phase := v.phase, up := v.up)
    requires v.phase.Listening? || v.phase.Draining? || v.phase.Halted?
    requires forall i :: 0 <= i < |v.up| ==> v.up[i] in w.up
    ensures WorkerOk(key, v)
  {
    DropsBasic(key, w, v);
    hide BasicOk;
    if !w.abandoned {
      OrderlyRemove(a, x, b, w.accepted, |w.sent|, w.coord.pending.Some?);
    }
  }

  function Downs(w: Worker): seq<nat> {
    seq(|w.down|, i requires 0 <= i < |w.down| => w.down[i].seqno)
  }

  function Middle(w: Worker): seq<nat> {
    match w.phase case Bound(f, _) => [f.seqno] case Answering(a) => [a.seqno] case _ => []
  }

  function Ups(w: Worker): seq<nat> {
    seq(|w.up|, i requires 0 <= i < |w.up| => w.up[i].seqno)
  }

  lemma HaltKeeps(key: GenKey, w: Worker, phase: Phase)
    requires WorkerOk(key, w) && (phase.Listening? || phase.Draining? || phase.Halted?)
    ensures WorkerOk(key, w.(phase := phase))
  {
    var v := w.(phase := phase);
    assert Pipeline(w) == Downs(w) + Middle(w) + Ups(w);
    assert Pipeline(v) == Downs(w) + Ups(w);
    DropsKeep(key, w, v, Downs(w), Middle(w), Ups(w));
  }

  lemma DrainKeeps(key: GenKey, w: Worker)
    requires WorkerOk(key, w) && w.phase.Draining? && w.up != []
    ensures WorkerOk(key, w.(up := w.up[1..]))
  {
    var v := w.(up := w.up[1..]);
    assert Ups(w) == [w.up[0].seqno] + Ups(v);
    assert Pipeline(w) == Downs(w) + [w.up[0].seqno] + Ups(v);
    assert Pipeline(v) == Downs(w) + Ups(v);
    DropsKeep(key, w, v, Downs(w), [w.up[0].seqno], Ups(v));
  }

  lemma AnswerKeeps(key: GenKey, w: Worker, phase: Phase)
    requires WorkerOk(key, w) && w.phase.Answering? && (phase.Listening? || phase.Draining?)
    ensures WorkerOk(key, w.(phase := phase, down := w.down + [w.phase.ack]))
  {
    AnswerBasic(key, w, phase);
    var v := w.(phase := phase, down := w.down + [w.phase.ack]);
    assert Pipeline(v) == Pipeline(w);
    hide BasicOk;
  }

  lemma AnswerAcks(key: GenKey, w: Worker, phase: Phase)
    requires AcksOk(key, w) && w.phase.Answering? && (phase.Listening? || phase.Draining?)
    ensures AcksOk(key, w.(phase := phase, down := w.down + [w.phase.ack]))
  {
  }

  lemma AnswerBasic(key: GenKey, w: Worker, phase: Phase)
    requires BasicOk(key, w) && w.phase.Answering? && (phase.Listening? || phase.Draining?)
    ensures BasicOk(key, w.(phase := phase, down := w.down + [w.phase.ack]))
  {
    AnswerAcks(key, w, phase);
    hide AcksOk;
  }

  /** Every local step keeps what is known about its worker. */
  lemma LocalKeeps(db: Db, key: GenKey, w: Worker, s: Step)
    requires WorkerOk(key, w) && Local(s) && Ready(w, s)
    ensures WorkerOk(key, LocalNext(db, key, w, s))
  {
    hide BasicOk, CalmOk;
    match s
    case Commit(_, tx, send) => SubmitKeeps(key, w, tx, send);
    case Resend(_, send) => RetryKeeps(key, w, send);
    case Flush(_) => FlushKeeps(key, w);
    case Poison(_) => PoisonKeeps(key, w);
    case Inbound(_) => InboundKeeps(key, w);
    case AckReady(_) => WakeKeeps(key, w);
    case Abandon(_) => GiveUpKeeps(key, w);
    case Take(_) => TakeKeeps(db, key, w);
    case StoreFails(_) => HaltKeeps(key, w, Halted);
    case Answer(_, arrives, healthy) =>
      var next := if healthy then Listening else Draining;
      if arrives || healthy { AnswerKeeps(key, w, next); } else { HaltKeeps(key, w, next); }
    case Drain(_) => DrainKeeps(key, w);
    case Halt(_) => HaltKeeps(key, w, Halted);
  }
}
