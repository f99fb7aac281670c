/** internal/storage/retention.go: bounded, resumable sweeps that discover a page of candidates in one
    read snapshot and recheck every one of them in a later write transaction. */
module Retention {
  import opened Schema
  import opened Transactions
  import opened Lifecycle

  const BATCH: nat := 64
  const HOUR: int := 3_600_000
  const REPLAY_HORIZON: int := 7 * 24 * HOUR

  datatype Candidate = Candidate(id: nat, eligible: bool)

  datatype Page = Page(
    before: Cursor, next: Cursor, ids: seq<Candidate>, dep: DeploymentId, gen: nat, complete: bool)

  // ---- What may be deleted --------------------------------------------------------------

  predicate Unsettled(db: Db, o: OutboxId) {
    exists k | k in db.deliveries :: k.outbox == o && Queued(db.deliveries[k])
  }

  predicate Prunable(db: Db, o: OutboxId, now: int)
    requires o in db.events
  {
    var e := db.events[o];
    e.dep in db.deployments && e.createdAt < now - db.deployments[e.dep].retention && !Unsettled(db, o)
  }

  predicate Aged(g: Generation, now: int) {
    g.status == Retired && g.retiredAt.Some? && g.retiredAt.value < now - REPLAY_HORIZON
  }

  predicate Referenced(db: Db, t: TxKey) {
    exists o | o in db.events ::
      db.events[o].kind == Monitor && db.events[o].dep == t.dep && db.events[o].gen == t.gen && db.events[o].seqno == t.seqno
  }

  predicate Disposable(db: Db, t: TxKey, now: int) {
    GenKey(t.dep, t.gen) in db.generations && Aged(db.generations[GenKey(t.dep, t.gen)], now) && !Referenced(db, t)
  }

  /** The same two conditions column by column, as the contracts of the sweeps say them: an event older than its
      deployment keeps events, none of whose deliveries is pending or being sent; ... */
  ghost predicate Outlived(db: Db, o: OutboxId, now: int) {
    && o in db.events && db.events[o].dep in db.deployments
    && db.events[o].createdAt + db.deployments[db.events[o].dep].retention < now
    && forall k :: k in db.deliveries && k.outbox == o ==>
         db.deliveries[k].status != Pending && db.deliveries[k].status != Sending
  }

  /** ... and a receipt of a generation retired more than seven days ago, with no event of its frame left. */
  ghost predicate Forgettable(db: Db, t: TxKey, now: int) {
    var key := GenKey(t.dep, t.gen);
    && key in db.generations && db.generations[key].status == Retired
    && db.generations[key].retiredAt.Some? && db.generations[key].retiredAt.value + 7 * 24 * 60 * 60 * 1000 < now
    && forall o :: o in db.events && db.events[o].kind == Monitor ==>
         !(db.events[o].dep == t.dep && db.events[o].gen == t.gen && db.events[o].seqno == t.seqno)
  }

  lemma OutlivedIsPrunable(db: Db, o: OutboxId, now: int)
    requires o in db.events
    ensures Outlived(db, o, now) <==> Prunable(db, o, now)
  {
  }

  lemma ForgettableIsDisposable(db: Db, t: TxKey, now: int)
    ensures Forgettable(db, t, now) <==> Disposable(db, t, now)
  {
  }

  /** Delete the event with this rowid if it may go; its deliveries go with it. */
  function DeleteEvent(db: Db, rowid: nat, now: int): Db {
    var kept := map o | o in db.events && !(db.events[o].rowid == rowid && Prunable(db, o, now)) :: db.events[o];
    db.(events := kept,
        deliveries := map k | k in db.deliveries && (k.outbox in kept || k.outbox !in db.events) :: db.deliveries[k])
  }

  function DeleteReceipt(db: Db, t: TxKey, now: int): Db {
    if t in db.ledger && Disposable(db, t, now) then db.(ledger := db.ledger - {t}) else db
  }

  function DeleteCandidate(db: Db, name: SweepName, p: Page, c: Candidate, now: int): Db {
    if !c.eligible then db
    else if name == OutboxSweep then DeleteEvent(db, c.id, now)
    else DeleteReceipt(db, TxKey(p.dep, p.gen, c.id), now)
  }

  /** The first `taken` candidates of the page, in order. */
  function DeleteAll(db: Db, name: SweepName, p: Page, taken: nat, now: int): Db
    requires taken <= |p.ids|
  {
    if taken == 0 then db else DeleteCandidate(DeleteAll(db, name, p, taken - 1, now), name, p, p.ids[taken - 1], now)
  }

  // ---- The write transaction of a slice ---------------------------------------------------

  function CursorOf(db: Db, name: SweepName): Cursor {
    if name in db.cursors then db.cursors[name] else ZERO_CURSOR
  }

  /** Where the cursor stands after `taken` candidates of the page. */
  function Progress(name: SweepName, p: Page, taken: nat, now: int): Cursor
    requires taken <= |p.ids|
  {
    if p.complete then ZERO_CURSOR.(nextSweep := now + HOUR)
    else if taken == 0 then p.next
    else if name == OutboxSweep then p.next.(after := p.ids[taken - 1].id)
    else p.next.(seqno := p.ids[taken - 1].id)
  }

  datatype Sweep = Idle(until: int) | Lost | Advanced(scanned: nat, more: bool)

  /** A slice is due unless a finished sweep is still resting. */
  predicate Resting(c: Cursor, now: int) {
    c.through == 0 && c.nextSweep > now
  }

  /** prune, after discovery: own the cursor, recheck and delete, move the cursor. */
  function Prune(db: Db, name: SweepName, p: Page, taken: nat, now: int): Outcome<Sweep>
    requires taken <= |p.ids|
  {
    if Resting(p.before, now) then Outcome(db, Ok(Idle(p.before.nextSweep)))
    else if CursorOf(db, name) != p.before then Outcome(db, Ok(Lost))
    else
      var swept := DeleteAll(db, name, p, taken, now);
      Outcome(swept.(cursors := swept.cursors[name := Progress(name, p, taken, now)]), Ok(Advanced(taken, !p.complete)))
  }

  // ---- Discovery ------------------------------------------------------------------------

  function Lowest(s: set<nat>): (m: nat)
    requires s != {}
    ensures m in s && forall x :: x in s ==> m <= x
  {
    LowestExists(s);
    var m :| m in s && forall x :: x in s ==> m <= x;
    m
  }

  lemma {:induction false} LowestOf(s: set<nat>) returns (m: nat)
    requires s != {}
    ensures m in s && forall x :: x in s ==> m <= x
  {
    var a :| a in s;
    var rest := s - {a};
    m := a;
    if rest != {} {
      var b := LowestOf(rest);
      m := if a <= b then a else b;
    }
    forall x | x in s ensures m <= x {
      assert x == a || x in rest;
    }
  }

  lemma LowestExists(s: set<nat>)
    requires s != {}
    ensures exists m :: m in s && forall x :: x in s ==> m <= x
  {
    var m := LowestOf(s);
  }

  /** `ORDER BY id LIMIT limit`. */
  function Ascending(s: set<nat>, limit: nat): (r: seq<nat>)
    ensures |r| <= limit
    ensures forall i :: 0 <= i < |r| ==> r[i] in s
    ensures forall i, j :: 0 <= i < j < |r| ==> r[i] < r[j]
    ensures forall x :: x in s && x !in r ==> |r| == limit && forall i :: 0 <= i < |r| ==> r[i] < x
  {
    if s == {} || limit == 0 then [] else
    var m := Lowest(s);
    [m] + Ascending(s - {m}, limit - 1)
  }

  /** The cursor a slice starts from: a finished sweep begins a new one over the rows of this instant. */
  function Begin(c: Cursor, highest: nat): Cursor {
    if c.through == 0 then Cursor(0, highest, 0, 0, 0) else c
  }

  function EventRowids(db: Db): set<nat> {
    set o | o in db.events :: db.events[o].rowid
  }

  predicate EligibleRow(db: Db, rowid: nat, now: int) {
    exists o | o in db.events :: db.events[o].rowid == rowid && Prunable(db, o, now)
  }

  function InRange(s: set<nat>, after: nat, through: nat): set<nat> {
    set x | x in s && after < x <= through
  }

  /** discoverMaintenance for the outbox. */
  function DiscoverEvents(db: Db, now: int): Page {
    var before := CursorOf(db, OutboxSweep);
    if Resting(before, now) then Page(before, before, [], "", 0, false) else
    var next := Begin(before, Highest(EventRowids(db)));
    var ids := Ascending(InRange(EventRowids(db), next.after, next.through), BATCH);
    Page(before, next, seq(|ids|, i requires 0 <= i < |ids| => Candidate(ids[i], EligibleRow(db, ids[i], now))), "", 0, ids == [])
  }

  function GenerationRows(db: Db): set<nat> {
    set k | k in db.generations :: db.generations[k].rowid
  }

  predicate AgedRow(db: Db, rowid: nat, key: GenKey, now: int) {
    key in db.generations && db.generations[key].rowid == rowid && Aged(db.generations[key], now)
  }

  function Sequences(db: Db, key: GenKey, after: nat): set<nat> {
    set t | t in db.ledger && t.dep == key.dep && t.gen == key.gen && t.seqno > after :: t.seqno
  }

  function Receipts(db: Db, key: GenKey, after: nat): seq<Candidate> {
    var ids := Ascending(Sequences(db, key, after), BATCH);
    seq(|ids|, i requires 0 <= i < |ids| => Candidate(ids[i], !Referenced(db, TxKey(key.dep, key.gen, ids[i]))))
  }

  /** The page of one generation: its next receipts, or a step past it when there are none. */
  function GenerationPage(db: Db, before: Cursor, next: Cursor, key: GenKey): Page {
    var ids := Receipts(db, key, next.seqno);
    if ids == [] then Page(before, next.(after := next.generation, generation := 0, seqno := 0), [], key.dep, key.gen, false)
    else Page(before, next, ids, key.dep, key.gen, false)
  }

  /** Walk the generation rows of one batch up to the first aged one. */
  ghost predicate FirstAged(db: Db, rows: seq<nat>, i: nat, key: GenKey, now: int) {
    && i < |rows| && AgedRow(db, rows[i], key, now)
    && forall j, k :: 0 <= j < i ==> !AgedRow(db, rows[j], k, now)
  }

  ghost predicate NoneAged(db: Db, rows: seq<nat>, now: int) {
    forall j, k :: 0 <= j < |rows| ==> !AgedRow(db, rows[j], k, now)
  }

  /** discoverMaintenance for the ledger, as a relation: rowids are unique, so at most one page satisfies it. */
  ghost predicate DiscoversReceipts(db: Db, now: int, p: Page) {
    var before := CursorOf(db, LedgerSweep);
    if Resting(before, now) then p == Page(before, before, [], "", 0, false) else
    var next := Begin(before, Highest(GenerationRows(db)));
    if next.generation == 0 then
      var rows := Ascending(InRange(GenerationRows(db), next.after, next.through), BATCH);
      || (exists i: nat, key: GenKey :: FirstAged(db, rows, i, key, now) &&
           p == GenerationPage(db, before,
             next.(after := (if i == 0 then next.after else rows[i - 1]), generation := rows[i]), key))
      || (NoneAged(db, rows, now) &&
           p == Page(before, next.(after := if rows == [] then next.after else rows[|rows| - 1]), [], "", 0,
             InRange(GenerationRows(db), if rows == [] then next.after else rows[|rows| - 1], next.through) == {}))
    else
      || (exists key :: AgedRow(db, next.generation, key, now) && p == GenerationPage(db, before, next, key))
      || ((forall key :: !AgedRow(db, next.generation, key, now)) &&
           p == Page(before, next.(after := next.generation, generation := 0, seqno := 0), [], "", 0, false))
  }

  // ---- What a page lists, column by column ------------------------------------------------

  /** In order, without a gap up to the last one, and at most sixty-four of them. */
  ghost predicate InOrder(ids: seq<Candidate>, all: set<nat>) {
    && |ids| <= 64
    && (forall i, j :: 0 <= i < j < |ids| ==> ids[i].id < ids[j].id)
    && (forall i :: 0 <= i < |ids| ==> ids[i].id in all)
    && (forall x :: x in all ==>
          || (exists i :: 0 <= i < |ids| && ids[i].id == x)
          || (|ids| == 64 && forall i :: 0 <= i < |ids| ==> ids[i].id < x))
  }

  /** A page of the outbox sweep: the next rows in the range of the sweep, each marked by whether it may go. */
  ghost predicate ListsEvents(db: Db, p: Page, now: int) {
    var rows := set o | o in db.events && p.next.after < db.events[o].rowid <= p.next.through :: db.events[o].rowid;
    && (p.before.through == 0 && p.before.nextSweep > now ==> p.ids == [] && p.next == p.before && !p.complete)
    && (!(p.before.through == 0 && p.before.nextSweep > now) ==> InOrder(p.ids, rows) && (p.complete <==> p.ids == []))
    && forall i :: 0 <= i < |p.ids| ==>
         (p.ids[i].eligible <==> exists o :: o in db.events && db.events[o].rowid == p.ids[i].id && Outlived(db, o, now))
  }

  /** A page of the ledger sweep: the next receipts of one generation retired for more than seven days, each marked
      by whether an event of its frame is left. */
  ghost predicate ListsReceipts(db: Db, p: Page, now: int) {
    p.ids != [] ==>
      && var key := GenKey(p.dep, p.gen);
      && key in db.generations && db.generations[key].rowid == p.next.generation && db.generations[key].status == Retired
      && db.generations[key].retiredAt.Some? && db.generations[key].retiredAt.value + 7 * 24 * 60 * 60 * 1000 < now
      && InOrder(p.ids, set t | t in db.ledger && t.dep == p.dep && t.gen == p.gen && t.seqno > p.next.seqno :: t.seqno)
      && forall i :: 0 <= i < |p.ids| ==>
           (p.ids[i].eligible <==>
            forall o :: o in db.events && db.events[o].kind == Monitor ==>
              !(db.events[o].dep == p.dep && db.events[o].gen == p.gen && db.events[o].seqno == p.ids[i].id))
  }

  lemma AscendingInOrder(all: set<nat>, ids: seq<Candidate>)
    requires |ids| == |Ascending(all, BATCH)| && forall i :: 0 <= i < |ids| ==> ids[i].id == Ascending(all, BATCH)[i]
    ensures InOrder(ids, all)
  {
    var r := Ascending(all, BATCH);
    forall x | x in all
      ensures (exists i :: 0 <= i < |ids| && ids[i].id == x) || (|ids| == 64 && forall i :: 0 <= i < |ids| ==> ids[i].id < x)
    {
      if x in r {
        var i :| 0 <= i < |r| && r[i] == x;
        assert ids[i].id == x;
      }
    }
  }

  lemma RowsInRange(db: Db, after: nat, through: nat)
    ensures InRange(EventRowids(db), after, through) ==
      set o | o in db.events && after < db.events[o].rowid <= through :: db.events[o].rowid
  {
  }

  lemma EligibleRows(db: Db, rowid: nat, now: int)
    ensures EligibleRow(db, rowid, now) <==> exists o :: o in db.events && db.events[o].rowid == rowid && Outlived(db, o, now)
  {
    hide Outlived, Prunable;
    forall o | o in db.events ensures Outlived(db, o, now) <==> Prunable(db, o, now) {
      OutlivedIsPrunable(db, o, now);
    }
  }

  lemma DiscoveredEvents(db: Db, now: int)
    ensures ListsEvents(db, DiscoverEvents(db, now), now)
  {
    hide EligibleRow, Outlived, Ascending, InRange, EventRowids, InOrder;
    var p := DiscoverEvents(db, now);
    RowsInRange(db, p.next.after, p.next.through);
    if !Resting(p.before, now) {
      AscendingInOrder(InRange(EventRowids(db), p.next.after, p.next.through), p.ids);
      forall i | 0 <= i < |p.ids|
        ensures p.ids[i].eligible <==> exists o :: o in db.events && db.events[o].rowid == p.ids[i].id && Outlived(db, o, now)
      {
        EligibleRows(db, p.ids[i].id, now);
      }
    }
  }

  lemma PageReceipts(db: Db, before: Cursor, next: Cursor, key: GenKey, now: int)
    requires AgedRow(db, next.generation, key, now)
    ensures ListsReceipts(db, GenerationPage(db, before, next, key), now)
  {
    hide Ascending, InOrder;
    var p := GenerationPage(db, before, next, key);
    if p.ids != [] {
      assert p.ids == Receipts(db, key, next.seqno) && p.next == next && p.dep == key.dep && p.gen == key.gen;
      AscendingInOrder(Sequences(db, key, next.seqno), p.ids);
    }
  }

  lemma DiscoveredReceipts(db: Db, p: Page, now: int)
    requires DiscoversReceipts(db, now, p)
    ensures ListsReceipts(db, p, now)
  {
    hide ListsReceipts, GenerationPage, Ascending, AgedRow;
    NoReceipts(db, p, now);
    var before := CursorOf(db, LedgerSweep);
    var next := Begin(before, Highest(GenerationRows(db)));
    var rows := Ascending(InRange(GenerationRows(db), next.after, next.through), BATCH);
    if i: nat, key :| FirstAged(db, rows, i, key, now) && p == GenerationPage(db, before,
        next.(after := (if i == 0 then next.after else rows[i - 1]), generation := rows[i]), key) {
      PageReceipts(db, before, next.(after := (if i == 0 then next.after else rows[i - 1]), generation := rows[i]), key, now);
    } else if key :| AgedRow(db, next.generation, key, now) && p == GenerationPage(db, before, next, key) {
      PageReceipts(db, before, next, key, now);
    }
  }

  lemma NoReceipts(db: Db, p: Page, now: int)
    ensures p.ids == [] ==> ListsReceipts(db, p, now)
  {
  }
}
