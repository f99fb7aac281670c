/** A run from an empty store that greets a worker with a checkpoint an operator has cleared. */
module StaleHello {
  import opened Schema
  import opened Transactions
  import opened Lifecycle
  import opened Writes
  import opened History
  import Gains

  /** The deployment row of the run: its status, its active generation and its revision change. */
  function Row(name: string, status: Status, gen: nat, revision: nat): Deployment {
    Deployment(name, status, "artifact", 1, "config", 1, 1, gen, "{}", revision, None)
  }

  function Input(name: string): DeployInput {
    DeployInput(name, "monitor", "config", "artifact", "{}", 1, 1, 1, None, ["destination"], None)
  }

  /** What the daemon read of the deployment at this revision, with this generation active. */
  function Read(dep: DeploymentId, gen: nat, revision: nat, checkpoints: map<string, Json>): Snapshot {
    Snapshot(dep, "artifact", 1, gen, "{}", revision, checkpoints)
  }

  function First(dep: DeploymentId, token: Token, source: string, value: Json, hash: Digest): Frame {
    Frame(dep, 1, token, 1, 0, "{}", [Mutation(source, value)], [], hash)
  }

  ghost predicate Given(dep: DeploymentId, token: Token, source: string, value: Json, hash: Digest) {
    dep != "" && !Blank(dep) && |token| >= 16 && source != "" && value != "" && hash != NoDigest
  }

  ghost predicate Stands(db: Db, dep: DeploymentId, status: Status, gen: nat, revision: nat) {
    dep in db.deployments && db.deployments[dep] == Row(dep, status, gen, revision)
  }

  // ---- One write at a time --------------------------------------------------------------------------

  lemma Deployed(dep: DeploymentId)
    requires dep != "" && !Blank(dep)
    ensures var b := Deploy(EMPTY_DB, dep, Input(dep), 0).db;
      Stands(b, dep, Active, 0, 0) && b.ledger == map[] && b.generations == map[] && b.checkpoints == map[]
  {
    assert "monitor"[0] == 'm' && 'm' in "monitor";
    assert "destination"[0] == 'd';
    assert ValidDeploy(Input(dep));
    assert DeployRow(EMPTY_DB, dep, Input(dep)) == Ok(Row(dep, Active, 0, 0));
  }

  lemma Opened(db: Db, dep: DeploymentId, token: Token)
    requires Stands(db, dep, Active, 0, 0) && dep != "" && db.ledger == map[] && db.generations == map[] && db.checkpoints == map[]
    ensures ReadSnapshot(db, dep) == Ok(Read(dep, 0, 0, map[]))
    ensures var o := Activate(db, Read(dep, 0, 0, map[]), "fingerprint", token, 0);
      && o.reply == Ok(1) && Stands(o.db, dep, Active, 1, 0) && o.db.ledger == map[] && o.db.checkpoints == map[]
      && IsCurrent(o.db, GenKey(dep, 1)) && o.db.generations[GenKey(dep, 1)].token == token && o.db.generations[GenKey(dep, 1)].lastSeq == 0
  {
    assert CheckpointsOf(db, dep) == map[];
    assert LatestGeneration(db, dep) == 0;
  }

  lemma Applied(db: Db, dep: DeploymentId, token: Token, source: string, value: Json, hash: Digest)
    requires Given(dep, token, source, value, hash) && Stands(db, dep, Active, 1, 0) && db.ledger == map[] && db.checkpoints == map[]
    requires IsCurrent(db, GenKey(dep, 1)) && db.generations[GenKey(dep, 1)].token == token && db.generations[GenKey(dep, 1)].lastSeq == 0
    ensures var b := Apply(db, First(dep, token, source, value, hash), 0).db;
      && Stands(b, dep, Active, 1, 1)
      && CheckpointKey(dep, source) in b.checkpoints && b.checkpoints[CheckpointKey(dep, source)].value == value
  {
    var f := First(dep, token, source, value, hash);
    assert ValidFrame(f);
    assert Lookup(db, f).None? && Refusal(db, f).None?;
    assert f.checkpoints[0] in f.checkpoints;
    assert InsertEvents(Advance(db, f), f, [], 0) == Ok(Advance(db, f));
  }

  lemma Recovered(db: Db, dep: DeploymentId)
    requires Stands(db, dep, Active, 1, 1)
    ensures var b := Recover(db, 0); Stands(b, dep, Active, 0, 1) && b.checkpoints == db.checkpoints
  {
  }

  lemma Paused(db: Db, dep: DeploymentId)
    requires Stands(db, dep, Active, 0, 1)
    ensures Stands(Pause(db, dep, 0).db, dep, Inactive, 0, 1)
  {
  }

  lemma Cleared(db: Db, dep: DeploymentId)
    requires Stands(db, dep, Inactive, 0, 1) && dep != ""
    ensures var b := ClearCheckpoints(db, dep, 0).db; Stands(b, dep, Inactive, 0, 1) && CheckpointsOf(b, dep) == map[]
  {
    assert forall k :: k in ClearCheckpoints(db, dep, 0).db.checkpoints ==> k.dep != dep;
  }

  lemma Resumed(db: Db, dep: DeploymentId)
    requires Stands(db, dep, Inactive, 0, 1) && CheckpointsOf(db, dep) == map[]
    ensures var b := Resume(db, dep, None, 0).db; Stands(b, dep, Active, 0, 1) && CheckpointsOf(b, dep) == map[]
  {
    assert Resume(db, dep, None, 0).db.checkpoints == db.checkpoints;
  }

  lemma Greets(db: Db, dep: DeploymentId, checkpoints: map<string, Json>, token: Token)
    requires Stands(db, dep, Active, 0, 1) && dep != ""
    ensures Activate(db, Read(dep, 0, 1, checkpoints), "fingerprint", token, 0).reply.Ok?
  {
  }

  // ---- The run ------------------------------------------------------------------------------------------

  lemma {:induction false} RunAppend(s: System, ws: seq<Write>, w: Write)
    requires AllowedRun(s, ws) && Allowed(Run(s, ws), w)
    ensures AllowedRun(s, ws + [w]) && Run(s, ws + [w]) == Next(Run(s, ws), w)
    decreases |ws|
  {
    if ws == [] {
      assert [w][1..] == [];
      assert AllowedRun(Next(s, w), []);
    } else {
      assert (ws + [w])[1..] == ws[1..] + [w];
      RunAppend(Next(s, ws[0]), ws[1..], w);
    }
  }

  lemma Performs(s: System, w: Write)
    ensures Next(s, w).db == Perform(s.db, w)
  {
  }

  /** A deployment, its first worker and one frame with a checkpoint; then the daemon starts again. */
  function Before(dep: DeploymentId, token: Token, source: string, value: Json, hash: Digest): seq<Write> {
    [DeployOne(dep, Input(dep), 0)] + [OpenGeneration(Read(dep, 0, 0, map[]), "fingerprint", token, 0)]
    + [ApplyFrame(First(dep, token, source, value, hash), 0)] + [RecoverDaemon(0)]
  }

  /** Between the new daemon's read and its activation an operator pauses, clears and resumes. */
  function Window(dep: DeploymentId): seq<Write> {
    [PauseOne(dep, 0)] + [ClearSources(dep, 0)] + [ResumeOne(dep, None, 0)]
  }

  lemma Step(s: System, ws: seq<Write>, w: Write, b: Db)
    requires AllowedRun(s, ws) && (w.DeployOne? ==> ws == [] && w.newId !in s.ids) && Perform(Run(s, ws).db, w) == b
    ensures AllowedRun(s, ws + [w]) && Run(s, ws + [w]).db == b
  {
    RunAppend(s, ws, w);
    Performs(Run(s, ws), w);
  }

  lemma Builds(dep: DeploymentId, token: Token) returns (ws: seq<Write>)
    requires dep != "" && !Blank(dep)
    ensures ws == [DeployOne(dep, Input(dep), 0)] + [OpenGeneration(Read(dep, 0, 0, map[]), "fingerprint", token, 0)]
    ensures AllowedRun(START, ws) && Stands(Run(START, ws).db, dep, Active, 1, 0)
    ensures Run(START, ws).db.ledger == map[] && Run(START, ws).db.checkpoints == map[] && IsCurrent(Run(START, ws).db, GenKey(dep, 1))
    ensures Run(START, ws).db.generations[GenKey(dep, 1)].token == token && Run(START, ws).db.generations[GenKey(dep, 1)].lastSeq == 0
  {
    var deploy, open := DeployOne(dep, Input(dep), 0), OpenGeneration(Read(dep, 0, 0, map[]), "fingerprint", token, 0);
    Gains.DeployPerforms(EMPTY_DB, dep, Input(dep), 0);
    Deployed(dep);
    var a := Deploy(EMPTY_DB, dep, Input(dep), 0).db;
    Step(START, [], deploy, a);
    assert [] + [deploy] == [deploy];
    Gains.OpenPerforms(a, Read(dep, 0, 0, map[]), "fingerprint", token, 0);
    Opened(a, dep, token);
    Step(START, [deploy], open, Activate(a, Read(dep, 0, 0, map[]), "fingerprint", token, 0).db);
    ws := [deploy] + [open];
  }

  lemma Arrives(dep: DeploymentId, token: Token, source: string, value: Json, hash: Digest)
    requires Given(dep, token, source, value, hash)
    ensures var ws := Before(dep, token, source, value, hash);
      && AllowedRun(START, ws) && Stands(Run(START, ws).db, dep, Active, 0, 1)
      && CheckpointKey(dep, source) in Run(START, ws).db.checkpoints
  {
    var ws := Builds(dep, token);
    var f := First(dep, token, source, value, hash);
    var a := Run(START, ws).db;
    Gains.ApplyPerforms(a, f, 0);
    Applied(a, dep, token, source, value, hash);
    var b := Apply(a, f, 0).db;
    Step(START, ws, ApplyFrame(f, 0), b);
    Gains.RecoverPerforms(b, 0);
    Recovered(b, dep);
    Step(START, ws + [ApplyFrame(f, 0)], RecoverDaemon(0), Recover(b, 0));
  }

  lemma Passes(s: System, dep: DeploymentId)
    requires Stands(s.db, dep, Active, 0, 1) && dep != ""
    ensures AllowedRun(s, Window(dep)) && Stands(Run(s, Window(dep)).db, dep, Active, 0, 1) && CheckpointsOf(Run(s, Window(dep)).db, dep) == map[]
  {
    var a := Pause(s.db, dep, 0).db;
    Gains.PausePerforms(s.db, dep, 0);
    Paused(s.db, dep);
    Step(s, [], PauseOne(dep, 0), a);
    assert [] + [PauseOne(dep, 0)] == [PauseOne(dep, 0)];
    Gains.ClearPerforms(a, dep, 0);
    Cleared(a, dep);
    var b := ClearCheckpoints(a, dep, 0).db;
    Step(s, [PauseOne(dep, 0)], ClearSources(dep, 0), b);
    Gains.ResumePerforms(b, dep, None, 0);
    Resumed(b, dep);
    Step(s, [PauseOne(dep, 0)] + [ClearSources(dep, 0)], ResumeOne(dep, None, 0), Resume(b, dep, None, 0).db);
  }

  /** From an empty store: the read is of an active deployment, the activation after the window succeeds, and the
      worker is greeted with a checkpoint that is no longer stored. */
  lemma GreetsWithCleared(dep: DeploymentId, token: Token, source: string, value: Json, hash: Digest)
    requires Given(dep, token, source, value, hash)
    ensures var ws := Before(dep, token, source, value, hash);
      var s := Run(START, ws);
      && AllowedRun(START, ws) && dep in s.db.deployments && s.db.deployments[dep].status == Active
      && AllowedRun(s, Window(dep))
      && Activate(Run(s, Window(dep)).db, ReadSnapshot(s.db, dep).value, "fingerprint", token, 0).reply.Ok?
      && source in ReadSnapshot(s.db, dep).value.checkpoints && CheckpointsOf(Run(s, Window(dep)).db, dep) == map[]
  {
    Arrives(dep, token, source, value, hash);
    var s := Run(START, Before(dep, token, source, value, hash));
    Passes(s, dep);
    var read := ReadSnapshot(s.db, dep).value;
    assert read == Read(dep, 0, 1, CheckpointsOf(s.db, dep));
    Greets(Run(s, Window(dep)).db, dep, CheckpointsOf(s.db, dep), token);
    assert CheckpointKey(dep, source) in s.db.checkpoints;
  }
}
