/** Why every retention sweep comes to an end, over whole runs of competing sweepers and all other writes. */
module SweepEnds {
  import opened Schema
  import opened Retention
  import opened Integrity
  import opened History
  import opened Sweeps

  // ---- What is left of a sweep ------------------------------------------------------------------------

  /** The row a cursor stands on. */
  function Position(c: Cursor): nat {
    if c.generation != 0 then c.generation else c.after
  }

  function Ahead(c: Cursor): nat {
    if c.through > Position(c) then c.through - Position(c) else 0
  }

  function Open(c: Cursor, bound: nat): nat {
    if c.generation == 0 then 0 else 1 + if bound > c.seqno then bound - c.seqno else 0
  }

  /** The outbox sweep has rows ahead. The ledger sweep has rows ahead, then perhaps an open generation, and then the
      receipts of that up to `bound`. */
  function Potential(name: SweepName, c: Cursor, bound: nat): nat {
    if name == OutboxSweep then Ahead(c) else Ahead(c) * (bound + 2) + Open(c, bound)
  }

  /** The first component falls, or it stays and the second falls, or both stay and the third falls. */
  ghost predicate Descends(c: Cursor, d: Cursor, bound: nat) {
    && d.through == c.through
    && (|| (Position(c) < Position(d) <= c.through)
        || (Position(d) == Position(c) && c.generation != 0 && d.generation == 0)
        || (Position(d) == Position(c) && c.generation != 0 && d.generation != 0 && c.seqno < d.seqno <= bound))
  }

  lemma {:induction false} FewerRows(fewer: nat, more: nat, w: nat, x: nat)
    requires fewer < more && x < w
    ensures fewer * w + x < more * w
    decreases more
  {
    assert more * w == (more - 1) * w + w;
    if fewer < more - 1 {
      FewerRows(fewer, more - 1, w, x);
    }
  }

  lemma DescendsPotential(name: SweepName, c: Cursor, d: Cursor, bound: nat)
    requires Descends(c, d, bound) && CursorOk(name, c) && CursorOk(name, d)
    ensures Potential(name, d, bound) < Potential(name, c, bound)
  {
    if Position(c) < Position(d) {
      FewerRows(Ahead(d), Ahead(c), bound + 2, Open(d, bound));
    } else {
      assert Ahead(d) == Ahead(c) && Open(d, bound) < Open(c, bound);
    }
  }

  /** The cursor of the outbox never holds a generation, and the ledger's never one beyond its mark. */
  predicate CursorOk(name: SweepName, c: Cursor) {
    c.generation <= c.through && (name == OutboxSweep ==> c.generation == 0)
  }

  // ---- One page -------------------------------------------------------------------------------------------

  /** Receipts of retired generations: nothing adds to them any more. */
  ghost predicate Within(db: Db, bound: nat) {
    forall k :: k in db.generations && db.generations[k].status == Retired ==> db.generations[k].lastSeq <= bound
  }

  /** What a slice of this page does to a cursor it owns. */
  ghost predicate PageDescends(name: SweepName, p: Page, now: int, bound: nat) {
    forall taken :: Takes(p, taken) && !Resting(p.before, now) && CursorOk(name, p.before) ==>
      && CursorOk(name, Progress(name, p, taken, now))
      && (p.before.through != 0 && !p.complete ==> Descends(p.before, Progress(name, p, taken, now), bound))
  }

  lemma OutboxPage(db: Db, p: Page, now: int, bound: nat)
    requires Reads(db, OutboxSweep, p, now)
    ensures PageDescends(OutboxSweep, p, now, bound)
  {
    DiscoveredPage(db, now);
    forall taken | Takes(p, taken) && !Resting(p.before, now) && CursorOk(OutboxSweep, p.before)
      ensures CursorOk(OutboxSweep, Progress(OutboxSweep, p, taken, now))
      ensures p.before.through != 0 && !p.complete ==> Descends(p.before, Progress(OutboxSweep, p, taken, now), bound)
    {
      if !p.complete {
        LastTaken(p, EventRowids(db), taken);
      }
    }
  }

  lemma ReceiptsBeyond(db: Db, key: GenKey, after: nat, taken: nat, now: int, bound: nat)
    requires LedgerOk(db.deployments, db.generations, db.ledger) && Within(db, bound)
    requires key in db.generations && Aged(db.generations[key], now) && 0 < taken <= |Receipts(db, key, after)|
    ensures after < Receipts(db, key, after)[taken - 1].id <= bound
  {
    var ids := Ascending(Sequences(db, key, after), BATCH);
    assert ids[taken - 1] in Sequences(db, key, after);
    var t :| t in db.ledger && t.dep == key.dep && t.gen == key.gen && t.seqno > after && t.seqno == ids[taken - 1];
    assert ReceiptOk(db.deployments, db.generations, t, db.ledger[t]);
  }

  /** A page of generation `key`, opened at row `next.generation`. */
  lemma GenerationDescends(db: Db, before: Cursor, next: Cursor, p: Page, key: GenKey, taken: nat, now: int, bound: nat,
                           start: Cursor)
    requires LedgerOk(db.deployments, db.generations, db.ledger) && Within(db, bound)
    requires AgedRow(db, next.generation, key, now)
    requires p == GenerationPage(db, before, next, key) && Takes(p, taken) && next.generation != 0
    requires start.through == next.through && next.generation <= next.through
    requires start == next || Position(start) < next.generation
    ensures Descends(start, Progress(LedgerSweep, p, taken, now), bound)
    ensures CursorOk(LedgerSweep, Progress(LedgerSweep, p, taken, now))
  {
    if p.ids != [] {
      ReceiptsBeyond(db, key, next.seqno, taken, now, bound);
    }
  }

  lemma WalkedRow(db: Db, next: Cursor, rows: seq<nat>, i: nat)
    requires rows == Ascending(InRange(GenerationRows(db), next.after, next.through), BATCH) && i < |rows|
    ensures next.after < rows[i] <= next.through
  {
    assert rows[i] in InRange(GenerationRows(db), next.after, next.through);
  }

  /** The page read while no generation is open: it opens one, or walks on over rows that are not aged. */
  lemma WalkDescends(db: Db, p: Page, taken: nat, now: int, bound: nat)
    requires LedgerOk(db.deployments, db.generations, db.ledger) && Within(db, bound)
    requires DiscoversReceipts(db, now, p) && !Resting(CursorOf(db, LedgerSweep), now) && Takes(p, taken) && !p.complete
    requires Begin(CursorOf(db, LedgerSweep), Highest(GenerationRows(db))).generation == 0
    ensures Descends(Begin(CursorOf(db, LedgerSweep), Highest(GenerationRows(db))), Progress(LedgerSweep, p, taken, now), bound)
    ensures CursorOk(LedgerSweep, Progress(LedgerSweep, p, taken, now))
  {
    var before := CursorOf(db, LedgerSweep);
    var next := Begin(before, Highest(GenerationRows(db)));
    var rows := Ascending(InRange(GenerationRows(db), next.after, next.through), BATCH);
    if i: nat, key :| FirstAged(db, rows, i, key, now) && p == GenerationPage(db, before,
          next.(after := (if i == 0 then next.after else rows[i - 1]), generation := rows[i]), key) {
      WalkedRow(db, next, rows, i);
      GenerationDescends(db, before, next.(after := (if i == 0 then next.after else rows[i - 1]), generation := rows[i]),
                         p, key, taken, now, bound, next);
    } else {
      WalkEnds(db, next, rows);
    }
  }

  lemma WalkEnds(db: Db, next: Cursor, rows: seq<nat>)
    requires rows == Ascending(InRange(GenerationRows(db), next.after, next.through), BATCH)
    ensures if rows == [] then InRange(GenerationRows(db), next.after, next.through) == {}
            else next.after < rows[|rows| - 1] <= next.through
  {
    if rows != [] {
      WalkedRow(db, next, rows, |rows| - 1);
    }
    assert forall x :: x in InRange(GenerationRows(db), next.after, next.through) && rows == [] ==> x in rows;
  }

  lemma LedgerDescends(db: Db, p: Page, taken: nat, now: int, bound: nat)
    requires LedgerOk(db.deployments, db.generations, db.ledger) && Within(db, bound)
    requires DiscoversReceipts(db, now, p) && !Resting(CursorOf(db, LedgerSweep), now) && Takes(p, taken) && !p.complete
    requires CursorOk(LedgerSweep, CursorOf(db, LedgerSweep))
    ensures Descends(Begin(CursorOf(db, LedgerSweep), Highest(GenerationRows(db))), Progress(LedgerSweep, p, taken, now), bound)
    ensures CursorOk(LedgerSweep, Progress(LedgerSweep, p, taken, now))
  {
    var before := CursorOf(db, LedgerSweep);
    var next := Begin(before, Highest(GenerationRows(db)));
    if next.generation == 0 {
      WalkDescends(db, p, taken, now, bound);
    } else if key :| AgedRow(db, next.generation, key, now) && p == GenerationPage(db, before, next, key) {
      GenerationDescends(db, before, next, p, key, taken, now, bound, next);
    }
  }

  lemma LedgerPage(db: Db, p: Page, now: int, bound: nat)
    requires LedgerOk(db.deployments, db.generations, db.ledger) && Within(db, bound) && Reads(db, LedgerSweep, p, now)
    ensures PageDescends(LedgerSweep, p, now, bound)
  {
    forall taken | Takes(p, taken) && !Resting(p.before, now) && CursorOk(LedgerSweep, p.before)
      ensures CursorOk(LedgerSweep, Progress(LedgerSweep, p, taken, now))
      ensures p.before.through != 0 && !p.complete ==> Descends(p.before, Progress(LedgerSweep, p, taken, now), bound)
    {
      if !p.complete {
        LedgerDescends(db, p, taken, now, bound);
      }
    }
  }

  // ---- Whole runs -------------------------------------------------------------------------------------------

  /** How many receipts the longest retired generation has. */
  function LongestRetired(db: Db): nat {
    Highest(set k | k in db.generations && db.generations[k].status == Retired :: db.generations[k].lastSeq)
  }

  lemma LongestIsWithin(db: Db, bound: nat)
    requires LongestRetired(db) <= bound
    ensures Within(db, bound)
  {
    var lengths := set k | k in db.generations && db.generations[k].status == Retired :: db.generations[k].lastSeq;
    forall k | k in db.generations && db.generations[k].status == Retired ensures db.generations[k].lastSeq <= bound {
      assert db.generations[k].lastSeq in lengths;
    }
  }

  /** The most receipts any generation had that was retired when some page of the run was read. Generations that are
      still at work do not count, however many frames they commit meanwhile. */
  ghost function Reach(name: SweepName, s: Sweepers, ms: seq<Move>): nat
    requires Sweeping(name, s, ms)
    decreases |ms|
  {
    if ms == [] then 0 else
    var rest := Reach(name, Moved(name, s, ms[0]), ms[1..]);
    if ms[0].Discover? && LongestRetired(s.sys.db) > rest then LongestRetired(s.sys.db) else rest
  }

  ghost predicate EndsOk(name: SweepName, s: Sweepers, bound: nat) {
    && SystemOk(s.sys) && CursorOk(name, CursorOf(s.sys.db, name))
    && forall k :: k in s.plans ==> PageDescends(name, s.plans[k].page, s.plans[k].now, bound)
  }

  lemma ReadPage(name: SweepName, db: Db, p: Page, now: int, bound: nat)
    requires Inv(db) && LongestRetired(db) <= bound && Reads(db, name, p, now)
    ensures PageDescends(name, p, now, bound)
  {
    LongestIsWithin(db, bound);
    if name == OutboxSweep {
      OutboxPage(db, p, now, bound);
    } else {
      LedgerPage(db, p, now, bound);
    }
  }

  lemma MoveEnds(name: SweepName, s: Sweepers, m: Move, bound: nat)
    requires EndsOk(name, s, bound) && Able(name, s, m) && (m.Discover? ==> LongestRetired(s.sys.db) <= bound)
    ensures EndsOk(name, Moved(name, s, m), bound)
  {
    MoveKeepsSystem(name, s, m);
    match m
    case Other(w) => OtherMoves(name, s, w);
    case Discover(_, page, now) => ReadPage(name, s.sys.db, page, now, bound);
    case Slice(who, taken, at) => SliceMoves(name, s, who, taken, at);
  }

  /** The slices of the run that moved the cursor. */
  ghost function Slices(name: SweepName, s: Sweepers, ms: seq<Move>): nat
    requires Sweeping(name, s, ms)
    decreases |ms|
  {
    if ms == [] then 0 else
    (if ms[0].Slice? && Advances(name, s, ms[0].who) then 1 else 0) + Slices(name, Moved(name, s, ms[0]), ms[1..])
  }

  /** A sweep has begun and is not finished at any point of the run. */
  ghost predicate Unfinished(name: SweepName, s: Sweepers, ms: seq<Move>)
    requires Sweeping(name, s, ms)
    decreases |ms|
  {
    CursorOf(s.sys.db, name).through != 0 && (ms == [] || Unfinished(name, Moved(name, s, ms[0]), ms[1..]))
  }

  lemma MoveDescends(name: SweepName, s: Sweepers, m: Move, bound: nat)
    requires EndsOk(name, s, bound) && Able(name, s, m) && EndsOk(name, Moved(name, s, m), bound)
    requires CursorOf(s.sys.db, name).through != 0 && CursorOf(Moved(name, s, m).sys.db, name).through != 0
    ensures (if m.Slice? && Advances(name, s, m.who) then 1 else 0)
      + Potential(name, CursorOf(Moved(name, s, m).sys.db, name), bound) <= Potential(name, CursorOf(s.sys.db, name), bound)
  {
    match m
    case Other(w) => OtherMoves(name, s, w);
    case Discover(_, _, _) =>
    case Slice(who, taken, at) =>
      SliceMoves(name, s, who, taken, at);
      if Advances(name, s, who) {
        var d := Progress(name, s.plans[who].page, taken, s.plans[who].now);
        assert PageDescends(name, s.plans[who].page, s.plans[who].now, bound);
        DescendsPotential(name, CursorOf(s.sys.db, name), d, bound);
      }
  }

  lemma {:induction false} SlicesAreBounded(name: SweepName, s: Sweepers, ms: seq<Move>, bound: nat)
    requires EndsOk(name, s, bound) && Sweeping(name, s, ms) && Unfinished(name, s, ms) && Reach(name, s, ms) <= bound
    ensures Slices(name, s, ms) + Potential(name, CursorOf(Swept(name, s, ms).sys.db, name), bound)
         <= Potential(name, CursorOf(s.sys.db, name), bound)
    decreases |ms|
  {
    if ms != [] {
      MoveEnds(name, s, ms[0], bound);
      MoveDescends(name, s, ms[0], bound);
      SlicesAreBounded(name, Moved(name, s, ms[0]), ms[1..], bound);
    }
  }

  lemma {:induction false} RunEnds(name: SweepName, s: Sweepers, ms: seq<Move>, bound: nat)
    requires EndsOk(name, s, bound) && Sweeping(name, s, ms) && Reach(name, s, ms) <= bound
    ensures EndsOk(name, Swept(name, s, ms), bound)
    decreases |ms|
  {
    if ms != [] {
      MoveEnds(name, s, ms[0], bound);
      RunEnds(name, Moved(name, s, ms[0]), ms[1..], bound);
    }
  }

  /** Every sweep terminates. Wherever a run of sweepers and all other writes has come to: as long as the sweep under
      way is unfinished, whatever happens, no more slices can move its cursor than its potential. */
  lemma SweepsTerminate(name: SweepName, before: seq<Move>, during: seq<Move>, bound: nat)
    requires Sweeping(name, IDLE, before) && Sweeping(name, Swept(name, IDLE, before), during)
    requires Unfinished(name, Swept(name, IDLE, before), during)
    requires Reach(name, IDLE, before) <= bound && Reach(name, Swept(name, IDLE, before), during) <= bound
    ensures Slices(name, Swept(name, IDLE, before), during)
      <= Potential(name, CursorOf(Swept(name, IDLE, before).sys.db, name), bound)
  {
    IdleOk();
    RunEnds(name, IDLE, before, bound);
    SlicesAreBounded(name, Swept(name, IDLE, before), during, bound);
  }

  /** For the outbox sweep that is simply the number of rows ahead, whatever the ledger holds. */
  lemma OutboxSweepTerminates(before: seq<Move>, during: seq<Move>)
    requires Sweeping(OutboxSweep, IDLE, before) && Sweeping(OutboxSweep, Swept(OutboxSweep, IDLE, before), during)
    requires Unfinished(OutboxSweep, Swept(OutboxSweep, IDLE, before), during)
    ensures Slices(OutboxSweep, Swept(OutboxSweep, IDLE, before), during)
      <= Ahead(CursorOf(Swept(OutboxSweep, IDLE, before).sys.db, OutboxSweep))
  {
    var a, b := Reach(OutboxSweep, IDLE, before), Reach(OutboxSweep, Swept(OutboxSweep, IDLE, before), during);
    SweepsTerminate(OutboxSweep, before, during, a + b);
  }
}
