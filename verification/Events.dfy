/** catalog/quicknode/evm/events.go: a live lane that may be wrong and a replay that settles it. */
module EvmEvents {
  import opened Sorting

  type Hash = string

  datatype Option<+T> = None | Some(value: T)

  datatype Log = Log(number: nat, hash: Hash, tx: Hash, txIndex: nat, index: nat, data: string)

  datatype LogId = LogId(hash: Hash, tx: Hash, index: nat)

  function Id(l: Log): LogId {
    LogId(l.hash, l.tx, l.index)
  }

  datatype Cursor = Cursor(next: nat, parent: Hash, current: Hash, nextLog: nat)

  datatype Delivery = Live(log: Log) | Removed(log: Log) | Confirmed(log: Log)

  const MAX_LIVE: nat := 256

  /** What is durable: replay cursor and live journal, and the deliveries committed with them. */
  datatype Story = Story(cursor: Cursor, live: seq<Log>, deliveries: seq<Delivery>)

  // ---- The live lane ------------------------------------------------------------------------------------

  function Ids(live: seq<Log>): set<LogId> {
    set l | l in live :: Id(l)
  }

  /** The ids delivered live and neither removed nor confirmed since, if live deliveries and removals take turns. */
  function Outstanding(ds: seq<Delivery>): Option<set<LogId>> {
    if ds == [] then Some({}) else
    match Outstanding(ds[..|ds| - 1])
    case None => None
    case Some(ids) =>
      match ds[|ds| - 1]
      case Live(l) => if Id(l) in ids then None else Some(ids + {Id(l)})
      case Removed(l) => if Id(l) in ids then Some(ids - {Id(l)}) else None
      case Confirmed(l) => Some(ids - {Id(l)})
  }

  ghost predicate DistinctIds(live: seq<Log>) {
    forall i, j :: 0 <= i < j < |live| ==> Id(live[i]) != Id(live[j])
  }

  /** The journal has a live delivery of this log: of the same block, transaction and log index. */
  ghost predicate Journals(live: seq<Log>, log: Log) {
    exists l :: l in live && l.hash == log.hash && l.tx == log.tx && l.index == log.index
  }

  /** The journal holds exactly the outstanding live deliveries, within its bound. */
  ghost predicate LaneOk(s: Story) {
    && |s.live| <= MAX_LIVE && DistinctIds(s.live)
    && Outstanding(s.deliveries) == Some(Ids(s.live))
    && (s.cursor.current == "" <==> s.cursor.nextLog == 0)
  }

  /** liveLogIndex. */
  method LiveLogIndex(logs: seq<Log>, id: LogId) returns (index: int)
    ensures -1 <= index < |logs|
    ensures index >= 0 ==> logs[index].hash == id.hash && logs[index].tx == id.tx && logs[index].index == id.index
    ensures index >= 0 ==> Id(logs[index]) == id
    ensures index < 0 ==> forall l :: l in logs ==> Id(l) != id
    ensures index < 0 ==> forall l :: l in logs ==> !(l.hash == id.hash && l.tx == id.tx && l.index == id.index)
  {
    for i := 0 to |logs|
      invariant forall k :: 0 <= k < i ==> Id(logs[k]) != id
    {
      if Id(logs[i]) == id {
        return i;
      }
    }
    return -1;
  }

  function Without(live: seq<Log>, index: nat): seq<Log>
    requires index < |live|
  {
    live[..index] + live[index + 1..]
  }

  lemma WithoutIds(live: seq<Log>, index: nat)
    requires index < |live| && DistinctIds(live)
    ensures DistinctIds(Without(live, index)) && Ids(Without(live, index)) == Ids(live) - {Id(live[index])}
  {
    var rest := Without(live, index);
    forall k | 0 <= k < |rest| ensures rest[k] == live[if k < index then k else k + 1] && Id(rest[k]) in Ids(live) - {Id(live[index])} {
      assert rest[k] in live;
    }
    forall id | id in Ids(live) - {Id(live[index])} ensures id in Ids(rest) {
      var l :| l in live && Id(l) == id;
      var k :| 0 <= k < |live| && live[k] == l;
      assert rest[if k < index then k else k - 1] == l;
    }
  }

  function DeliverLive(s: Story, l: Log): Story {
    s.(live := s.live + [l], deliveries := s.deliveries + [Live(l)])
  }

  function DeliverRemoved(s: Story, index: nat): Story
    requires index < |s.live|
  {
    s.(live := Without(s.live, index), deliveries := s.deliveries + [Removed(s.live[index])])
  }

  /** A confirmed log moves the cursor past it and closes its live delivery, if it has one. */
  function DeliverConfirmed(s: Story, l: Log, live: seq<Log>): Story {
    Story(Cursor(l.number, s.cursor.parent, l.hash, l.index + 1), live, s.deliveries + [Confirmed(l)])
  }

  function FinishRange(s: Story, to: nat, hash: Hash): Story {
    s.(cursor := Cursor(to + 1, hash, "", 0))
  }

  lemma LiveKeeps(s: Story, l: Log)
    requires LaneOk(s) && |s.live| < MAX_LIVE && forall k :: k in s.live ==> Id(k) != Id(l)
    ensures LaneOk(DeliverLive(s, l))
  {
    assert (s.deliveries + [Live(l)])[..|s.deliveries|] == s.deliveries;
    assert Ids(s.live + [l]) == Ids(s.live) + {Id(l)};
  }

  lemma RemovedKeeps(s: Story, index: nat)
    requires LaneOk(s) && index < |s.live|
    ensures LaneOk(DeliverRemoved(s, index))
  {
    assert (s.deliveries + [Removed(s.live[index])])[..|s.deliveries|] == s.deliveries;
    assert s.live[index] in s.live;
    WithoutIds(s.live, index);
  }

  /** The journal without the confirmed log's entry. */
  ghost predicate Closes(live: seq<Log>, id: LogId, rest: seq<Log>) {
    || (rest == live && forall l :: l in live ==> Id(l) != id)
    || (exists i: nat :: i < |live| && Id(live[i]) == id && rest == Without(live, i))
  }

  lemma ConfirmedKeeps(s: Story, l: Log, rest: seq<Log>)
    requires LaneOk(s) && Closes(s.live, Id(l), rest) && l.hash != ""
    ensures LaneOk(DeliverConfirmed(s, l, rest))
  {
    assert (s.deliveries + [Confirmed(l)])[..|s.deliveries|] == s.deliveries;
    if rest == s.live && forall k :: k in s.live ==> Id(k) != Id(l) {
      assert Ids(s.live) - {Id(l)} == Ids(s.live);
    } else {
      var i: nat :| i < |s.live| && Id(s.live[i]) == Id(l) && rest == Without(s.live, i);
      WithoutIds(s.live, i);
    }
  }

  // ---- What the order of deliveries means --------------------------------------------------------------------------

  /** `d` ends the live life of `id`. */
  predicate Ends(d: Delivery, id: LogId) {
    !d.Live? && Id(d.log) == id
  }

  lemma {:induction false} OutstandingPrefix(ds: seq<Delivery>, n: nat)
    requires Outstanding(ds).Some? && n <= |ds|
    ensures Outstanding(ds[..n]).Some?
  {
    if n < |ds| {
      OutstandingPrefix(ds[..|ds| - 1], n);
      assert ds[..|ds| - 1][..n] == ds[..n];
    } else {
      assert ds[..n] == ds;
    }
  }

  /** An outstanding id has a live delivery that nothing has ended since. */
  lemma {:induction false} OutstandingSince(ds: seq<Delivery>, id: LogId)
    requires Outstanding(ds).Some? && id in Outstanding(ds).value
    ensures exists i :: 0 <= i < |ds| && ds[i].Live? && Id(ds[i].log) == id && forall m :: i < m < |ds| ==> !Ends(ds[m], id)
  {
    var n := |ds| - 1;
    if !(ds[n].Live? && Id(ds[n].log) == id) {
      OutstandingSince(ds[..n], id);
      var i :| 0 <= i < n && ds[..n][i].Live? && Id(ds[..n][i].log) == id && forall m :: i < m < n ==> !Ends(ds[..n][m], id);
      forall m | i < m < |ds| ensures !Ends(ds[m], id) {
        assert m < n ==> ds[..n][m] == ds[m];
      }
      assert ds[i].Live?;
    }
  }

  lemma {:induction false} StaysOutstanding(ds: seq<Delivery>, i: nat, n: nat)
    requires Outstanding(ds).Some? && i < n <= |ds| && ds[i].Live?
    requires forall m :: i < m < n ==> !Ends(ds[m], Id(ds[i].log))
    ensures Outstanding(ds[..n]).Some? && Id(ds[i].log) in Outstanding(ds[..n]).value
    decreases n
  {
    OutstandingPrefix(ds, n);
    assert ds[..n][..n - 1] == ds[..n - 1];
    if i < n - 1 {
      StaysOutstanding(ds, i, n - 1);
    }
  }

  /** A removal takes back a live delivery that is still outstanding. */
  lemma RemovedFollowsLive(ds: seq<Delivery>, j: nat)
    requires Outstanding(ds).Some? && j < |ds| && ds[j].Removed?
    ensures exists i ::
      0 <= i < j && ds[i].Live? && Id(ds[i].log) == Id(ds[j].log) && forall m :: i < m < j ==> !Ends(ds[m], Id(ds[j].log))
  {
    OutstandingPrefix(ds, j + 1);
    assert ds[..j + 1][..j] == ds[..j];
    OutstandingSince(ds[..j], Id(ds[j].log));
    var i :| 0 <= i < j && ds[..j][i].Live? && Id(ds[..j][i].log) == Id(ds[j].log)
      && forall m :: i < m < j ==> !Ends(ds[..j][m], Id(ds[j].log));
    forall m | i < m < j ensures !Ends(ds[m], Id(ds[j].log)) {
      assert ds[..j][m] == ds[m];
    }
    assert ds[i].Live?;
  }

  /** Between two live deliveries of one log there is a removal or a confirmation. */
  lemma LiveOnceUntilEnded(ds: seq<Delivery>, i: nat, j: nat)
    requires Outstanding(ds).Some? && i < j < |ds| && ds[i].Live? && ds[j].Live? && Id(ds[i].log) == Id(ds[j].log)
    ensures exists m :: i < m < j && Ends(ds[m], Id(ds[i].log))
  {
    OutstandingPrefix(ds, j + 1);
    assert ds[..j + 1][..j] == ds[..j];
    if forall m :: i < m < j ==> !Ends(ds[m], Id(ds[i].log)) {
      StaysOutstanding(ds, i, j);
    }
  }

  // ---- The replay lane --------------------------------------------------------------------------------------

  predicate Reconciled(c: Cursor, l: Log) {
    l.number < c.next || (l.number == c.next && c.current == l.hash && l.index < c.nextLog)
  }

  /** The order replay sorts a range into. */
  predicate Before(a: Log, b: Log) {
    || a.number < b.number
    || (a.number == b.number && a.txIndex < b.txIndex)
    || (a.number == b.number && a.txIndex == b.txIndex && a.index < b.index)
  }

  /** The matching logs of the confirmed chain in order: one hash a block, and log indices that grow with the
      transaction index within it. */
  ghost predicate ChainLogs(chain: seq<Log>) {
    && Ascending(Before, chain)
    && (forall i :: 0 <= i < |chain| ==> chain[i].hash != "")
    && (forall i, j :: 0 <= i < j < |chain| && chain[i].number == chain[j].number ==>
          chain[i].hash == chain[j].hash && chain[i].index < chain[j].index)
  }

  function ConfirmedOf(ds: seq<Delivery>): seq<Log> {
    if ds == [] then [] else
    ConfirmedOf(ds[..|ds| - 1]) + (if ds[|ds| - 1].Confirmed? then [ds[|ds| - 1].log] else [])
  }

  /** `k` logs of the chain are confirmed, each once and in order, and the cursor stands right behind them. */
  ghost predicate Replayed(chain: seq<Log>, s: Story, k: nat) {
    && k <= |chain| && ConfirmedOf(s.deliveries) == chain[..k]
    && (forall i :: 0 <= i < k ==> Reconciled(s.cursor, chain[i]))
    && (forall i :: k <= i < |chain| ==> !Reconciled(s.cursor, chain[i]))
  }

  lemma LaneOnly(chain: seq<Log>, s: Story, k: nat, live: seq<Log>, d: Delivery)
    requires Replayed(chain, s, k) && !d.Confirmed?
    ensures Replayed(chain, s.(live := live, deliveries := s.deliveries + [d]), k)
  {
    assert (s.deliveries + [d])[..|s.deliveries|] == s.deliveries;
    assert ConfirmedOf(s.deliveries + [d]) == ConfirmedOf(s.deliveries);
  }

  /** Confirming the next log of the chain. */
  lemma ConfirmsNext(chain: seq<Log>, s: Story, k: nat, rest: seq<Log>)
    requires ChainLogs(chain) && Replayed(chain, s, k) && k < |chain|
    ensures Replayed(chain, DeliverConfirmed(s, chain[k], rest), k + 1)
  {
    var t := DeliverConfirmed(s, chain[k], rest);
    assert t.deliveries[..|s.deliveries|] == s.deliveries;
    assert chain[..k + 1] == chain[..k] + [chain[k]];
    forall i | 0 <= i < k + 1 ensures Reconciled(t.cursor, chain[i]) {
      assert i < k ==> Before(chain[i], chain[k]);
    }
    forall i | k + 1 <= i < |chain| ensures !Reconciled(t.cursor, chain[i]) {
      assert Before(chain[k], chain[i]);
    }
  }

  /** Finishing a range once every log up to its end is confirmed. */
  lemma FinishesRange(chain: seq<Log>, s: Story, k: nat, to: nat, hash: Hash)
    requires Replayed(chain, s, k)
    requires forall i :: 0 <= i < |chain| ==> (i < k <==> chain[i].number <= to)
    ensures Replayed(chain, FinishRange(s, to, hash), k)
  {
  }

  // ---- What the endpoint serves -----------------------------------------------------------------------------------

  /** How many logs of an ascending chain lie below block `n`. */
  function Below(chain: seq<Log>, n: nat): (k: nat)
    ensures k <= |chain|
  {
    if chain == [] || chain[0].number >= n then 0 else 1 + Below(chain[1..], n)
  }

  lemma {:induction false} BelowSplits(chain: seq<Log>, n: nat, i: nat)
    requires Ascending(Before, chain) && i < |chain|
    ensures i < Below(chain, n) <==> chain[i].number < n
  {
    if chain[0].number >= n {
      assert i > 0 ==> Before(chain[0], chain[i]);
    } else if i > 0 {
      BelowSplits(chain[1..], n, i - 1);
    }
  }

  lemma BelowGrows(chain: seq<Log>, m: nat, n: nat)
    requires Ascending(Before, chain) && m <= n
    ensures Below(chain, m) <= Below(chain, n)
  {
    if Below(chain, m) > Below(chain, n) {
      BelowSplits(chain, m, Below(chain, n));
      BelowSplits(chain, n, Below(chain, n));
    }
  }

  function Between(chain: seq<Log>, from: nat, to: nat): seq<Log> {
    if Below(chain, from) <= Below(chain, to + 1) then chain[Below(chain, from)..Below(chain, to + 1)] else []
  }

  lemma BeforeIsStrict()
    ensures StrictOrder(Before)
  {
  }

  /** A range answered in any order sorts into the chain's own. */
  lemma SortedRange(chain: seq<Log>, from: nat, to: nat, raw: seq<Log>)
    requires ChainLogs(chain) && multiset(raw) == multiset(Between(chain, from, to))
    ensures Sort(Before, raw) == Between(chain, from, to)
  {
    BeforeIsStrict();
    SortRestores(Before, Between(chain, from, to), raw);
  }

  /** The log the cursor waits for. */
  lemma NextToConfirm(chain: seq<Log>, s: Story, k: nat, from: nat, to: nat)
    requires ChainLogs(chain) && Replayed(chain, s, k) && from == s.cursor.next <= to
    ensures Below(chain, from) <= k <= Below(chain, to + 1)
  {
    BelowGrows(chain, from, to + 1);
    if k < Below(chain, from) {
      BelowSplits(chain, from, k);
    }
    if k > Below(chain, to + 1) {
      BelowSplits(chain, to + 1, Below(chain, to + 1));
    }
  }

  // ---- The source ---------------------------------------------------------------------------------------------------

  /** A commit can fail with nothing durable, or fail although it is durable. */
  datatype Commit = Done | Undone | Uncertain

  /** Everything outside the source, call by call: chain head, logs of a range in any order, block hashes, whether the
      handler succeeds, and how the commit ends. A missing answer is an error. */
  datatype Environment = Environment(
    heads: nat -> Option<nat>, logs: (nat, nat, nat) -> Option<seq<Log>>, blocks: (nat, nat) -> Option<Hash>,
    handles: nat -> bool, commits: nat -> Commit)

  /** Hashes of decoded responses are never empty. */
  ghost predicate WellFormed(env: Environment) {
    && (forall at, from, to :: env.logs(at, from, to).Some? ==> forall l :: l in env.logs(at, from, to).value ==> l.hash != "")
    && (forall at, n :: env.blocks(at, n).Some? ==> env.blocks(at, n).value != "")
  }

  /** Up to the confirmed part of a head reported earlier, the chain stands still: whoever asks for such a range gets
      its matching logs, or an error. Above it the endpoint may answer anything, and the chain may grow. */
  ghost predicate ServesLogs(env: Environment, chain: seq<Log>, confirmations: nat) {
    forall e, at, from, to ::
      Confirms(env, e, confirmations, to) && e < at && env.logs(at, from, to).Some? ==>
        multiset(env.logs(at, from, to).value) == multiset(Between(chain, from, to))
  }

  /** The head reported in call `e` confirms this block. */
  predicate Confirms(env: Environment, e: nat, confirmations: nat, to: nat) {
    env.heads(e).Some? && to + confirmations <= env.heads(e).value
  }

  /** Everything confirmed so far is a prefix of the chain, and the cursor stands right behind it. */
  ghost predicate OnTrack(chain: seq<Log>, s: Story) {
    Replayed(chain, s, |ConfirmedOf(s.deliveries)|)
  }

  datatype Outcome = Fine | Fails

  datatype Reconciling = CaughtUp | Behind | Breaks

  /** The live lane leaves the replay lane where it is. */
  lemma LaneStays(before: Story, after: Story, index: nat, log: Log)
    requires after == before || after == DeliverLive(before, log) || (index < |before.live| && after == DeliverRemoved(before, index))
    ensures forall chain :: OnTrack(chain, before) ==> OnTrack(chain, after)
    ensures after.cursor == before.cursor
  {
    if after != before {
      var d := after.deliveries[|before.deliveries|];
      forall chain | OnTrack(chain, before) ensures OnTrack(chain, after) {
        var k := |ConfirmedOf(before.deliveries)|;
        LaneOnly(chain, before, k, after.live, d);
        assert after == before.(live := after.live, deliveries := before.deliveries + [d]);
      }
    }
  }

  // ---- Why a call may fail --------------------------------------------------------------------------------------------

  /** What the source asks of the outside. */
  datatype Question = HeadAsked | LogsAsked(from: nat, to: nat) | BlockAsked(number: nat) | HandleAsked | CommitAsked

  /** The outside call `at`, which asked this, is an error; a commit errs even if it became durable. */
  ghost predicate Refused(env: Environment, at: nat, q: Question) {
    match q
    case HeadAsked => env.heads(at).None?
    case LogsAsked(from, to) => env.logs(at, from, to).None?
    case BlockAsked(number) => env.blocks(at, number).None?
    case HandleAsked => !env.handles(at)
    case CommitAsked => env.commits(at) != Done
  }

  /** One of the questions asked since call `from` was refused. */
  ghost predicate Failed(env: Environment, asked: seq<Question>, from: nat) {
    exists at :: from <= at < |asked| && Refused(env, at, asked[at])
  }

  lemma Asks(env: Environment, asked: seq<Question>, from: nat, q: Question)
    requires from <= |asked|
    ensures Failed(env, asked + [q], from) <==> Failed(env, asked, from) || Refused(env, |asked|, q)
  {
    var more := asked + [q];
    if Failed(env, asked, from) {
      var at :| from <= at < |asked| && Refused(env, at, asked[at]);
      assert more[at] == asked[at];
    }
    if Refused(env, |asked|, q) {
      assert more[|asked|] == q;
    }
  }

  /** The failures since `from` are those up to `mid` and those since. */
  lemma FailedSince(env: Environment, asked: seq<Question>, more: seq<Question>, from: nat)
    requires from <= |asked| && asked <= more
    ensures Failed(env, more, from) <==> Failed(env, asked, from) || Failed(env, more, |asked|)
  {
    if Failed(env, asked, from) {
      var at :| from <= at < |asked| && Refused(env, at, asked[at]);
      assert more[at] == asked[at];
    }
  }

  /** Only blocks up to `top` were asked about since call `from`. */
  ghost predicate AsksUpTo(asked: seq<Question>, from: nat, top: int) {
    forall at :: from <= at < |asked| ==> Within(asked[at], top)
  }

  predicate Within(q: Question, top: int) {
    match q
    case LogsAsked(from, to) => from <= to <= top
    case BlockAsked(number) => number <= top
    case _ => true
  }

  lemma AsksSince(asked: seq<Question>, more: seq<Question>, from: nat, low: int, top: int)
    requires asked <= more && AsksUpTo(asked, from, low) && AsksUpTo(more, |asked|, top) && low <= top
    ensures AsksUpTo(more, from, top)
  {
    forall at | from <= at < |more| ensures Within(more[at], top) {
      if at < |asked| {
        assert more[at] == asked[at];
      }
    }
  }

  /** A journaled log of the range is missing from the answer, though the endpoint still has its block. */
  ghost predicate Withholds(env: Environment, asked: seq<Question>, from: nat, low: nat, high: nat, answer: seq<Log>,
                            live: seq<Log>) {
    exists at, l ::
      && from <= at < |asked| && l in live && low <= l.number <= high && Id(l) !in Ids(answer)
      && asked[at] == BlockAsked(l.number) && env.blocks(at, l.number) == Some(l.hash)
  }

  ghost predicate Withheld(env: Environment, asked: seq<Question>, from: nat, low: nat, live: seq<Log>) {
    exists e, high ::
      && from <= e < |asked| && asked[e] == LogsAsked(low, high) && env.logs(e, low, high).Some?
      && Withholds(env, asked, e + 1, low, high, env.logs(e, low, high).value, live)
  }

  /** The block the cursor stands in, or the one before it, is known. */
  predicate Anchored(c: Cursor) {
    c.current != "" || (c.next > 0 && c.parent != "")
  }

  function AnchorBlock(c: Cursor): nat
    requires Anchored(c)
  {
    if c.current != "" then c.next else c.next - 1
  }

  function AnchorHash(c: Cursor): Hash {
    if c.current != "" then c.current else c.parent
  }

  /** Call `at` asked for the block the cursor stands in, or the one before it, and it is no longer the one it was. */
  ghost predicate BoundaryMoved(env: Environment, asked: seq<Question>, at: nat, c: Cursor) {
    && at < |asked| && Anchored(c) && asked[at] == BlockAsked(AnchorBlock(c))
    && env.blocks(at, AnchorBlock(c)).Some? && env.blocks(at, AnchorBlock(c)).value != AnchorHash(c)
  }

  // ---- What a call does -----------------------------------------------------------------------------------------------

  /** What a live message asks for: a first sighting is delivered and journaled, a removal takes the journaled
      delivery back, anything else is ignored. */
  ghost predicate Heard(before: Story, after: Story, log: Log, removed: bool) {
    if Id(log) !in Ids(before.live) then
      if removed then after == before else |before.live| < MAX_LIVE && after == DeliverLive(before, log)
    else if removed then exists i: nat :: i < |before.live| && Id(before.live[i]) == Id(log) && after == DeliverRemoved(before, i)
    else after == before
  }

  /** One journaled log of the range, gone from the chain, was taken back. */
  ghost predicate TookOrphan(env: Environment, asked: seq<Question>, from: nat, low: nat, high: nat, canonical: seq<Log>,
                             before: Story, after: Story) {
    exists i: nat, at: nat ::
      && i < |before.live| && from <= at < |asked| && asked[at] == BlockAsked(before.live[i].number) && after == DeliverRemoved(before, i)
      && low <= before.live[i].number <= high && Id(before.live[i]) !in Ids(canonical)
      && env.blocks(at, before.live[i].number).Some? && env.blocks(at, before.live[i].number).value != before.live[i].hash
  }

  datatype OrphanEnd = NoOrphan | OrphanRemoved | OrphanFails

  /** Nothing, one live delivery or one removal happened. */
  ghost predicate Lanes(before: Story, after: Story) {
    after == before || exists i: nat :: i < |before.live| && after == DeliverRemoved(before, i)
  }

  lemma LanesTrack(before: Story, after: Story)
    requires Lanes(before, after)
    ensures forall chain :: OnTrack(chain, before) ==> OnTrack(chain, after)
    ensures after.cursor == before.cursor
  {
    if after != before {
      var i: nat :| i < |before.live| && after == DeliverRemoved(before, i);
      LaneStays(before, after, i, before.live[i]);
    }
  }

  /** `logs` is the chain between `from` and `to`, and its first `i` logs are confirmed. */
  ghost predicate Confirming(chain: seq<Log>, logs: seq<Log>, from: nat, to: nat, s: Story, i: nat) {
    var k := |ConfirmedOf(s.deliveries)|;
    && ChainLogs(chain) && logs == Between(chain, from, to) && OnTrack(chain, s) && i <= |logs|
    && Below(chain, from) <= Below(chain, to + 1)
    && Below(chain, from) + i <= k <= Below(chain, to + 1)
  }

  lemma StartsConfirming(chain: seq<Log>, from: nat, to: nat, raw: seq<Log>, s: Story)
    requires ChainLogs(chain) && OnTrack(chain, s) && from == s.cursor.next <= to
    requires multiset(raw) == multiset(Between(chain, from, to))
    ensures Confirming(chain, Sort(Before, raw), from, to, s, 0)
  {
    SortedRange(chain, from, to, raw);
    NextToConfirm(chain, s, |ConfirmedOf(s.deliveries)|, from, to);
  }

  lemma SkipsConfirmed(chain: seq<Log>, logs: seq<Log>, from: nat, to: nat, s: Story, i: nat)
    requires Confirming(chain, logs, from, to, s, i) && i < |logs| && Reconciled(s.cursor, logs[i])
    ensures Confirming(chain, logs, from, to, s, i + 1)
  {
    assert logs[i] == chain[Below(chain, from) + i];
  }

  lemma ConfirmsLog(chain: seq<Log>, logs: seq<Log>, from: nat, to: nat, s: Story, i: nat, rest: seq<Log>)
    requires Confirming(chain, logs, from, to, s, i) && i < |logs| && !Reconciled(s.cursor, logs[i])
    ensures Confirming(chain, logs, from, to, DeliverConfirmed(s, logs[i], rest), i + 1)
  {
    var k := |ConfirmedOf(s.deliveries)|;
    assert logs[i] == chain[Below(chain, from) + i];
    assert k == Below(chain, from) + i;
    ConfirmsNext(chain, s, k, rest);
  }

  /** Of the first `i` logs of the range, those not yet confirmed when it was `k` of the chain have left the journal. */
  ghost predicate Cleared(chain: seq<Log>, logs: seq<Log>, from: nat, k: nat, s: Story, i: nat) {
    && (|ConfirmedOf(s.deliveries)| == k || |ConfirmedOf(s.deliveries)| == Below(chain, from) + i)
    && forall j :: 0 <= j < i && j < |logs| && Below(chain, from) + j >= k ==> Id(logs[j]) !in Ids(s.live)
  }

  ghost predicate Walking(chain: seq<Log>, logs: seq<Log>, from: nat, to: nat, k: nat, s: Story, i: nat) {
    Confirming(chain, logs, from, to, s, i) && Cleared(chain, logs, from, k, s, i)
  }

  lemma WalksOver(chain: seq<Log>, logs: seq<Log>, from: nat, to: nat, k: nat, s: Story, i: nat)
    requires Walking(chain, logs, from, to, k, s, i) && i < |logs| && Reconciled(s.cursor, logs[i])
    ensures Walking(chain, logs, from, to, k, s, i + 1)
  {
    SkipsConfirmed(chain, logs, from, to, s, i);
    assert logs[i] == chain[Below(chain, from) + i];
  }

  lemma WalksOn(chain: seq<Log>, logs: seq<Log>, from: nat, to: nat, k: nat, s: Story, i: nat, rest: seq<Log>)
    requires Walking(chain, logs, from, to, k, s, i) && i < |logs| && !Reconciled(s.cursor, logs[i])
    requires DistinctIds(s.live) && Closes(s.live, Id(logs[i]), rest)
    ensures Walking(chain, logs, from, to, k, DeliverConfirmed(s, logs[i], rest), i + 1) && OnTrack(chain, s)
    ensures OnTrack(chain, DeliverConfirmed(s, logs[i], rest))
  {
    ConfirmsLog(chain, logs, from, to, s, i, rest);
    assert logs[i] == chain[Below(chain, from) + i];
    var t := DeliverConfirmed(s, logs[i], rest);
    assert t.deliveries[..|s.deliveries|] == s.deliveries;
    ClosesIds(s.live, Id(logs[i]), rest);
  }

  lemma OrphanShrinks(before: Story, after: Story)
    requires Lanes(before, after) && after != before
    ensures Orphaned(before, after)
  {
    var i: nat :| i < |before.live| && after == DeliverRemoved(before, i);
    forall l | l in after.live ensures l in before.live {
      var k :| 0 <= k < |after.live| && after.live[k] == l;
      assert l == before.live[if k < i then k else k + 1];
    }
  }

  ghost predicate Shrinks(before: seq<Log>, after: seq<Log>) {
    |after| <= |before| && forall l :: l in after ==> l in before
  }

  lemma ClosesIds(live: seq<Log>, id: LogId, rest: seq<Log>)
    requires DistinctIds(live) && Closes(live, id, rest)
    ensures Ids(rest) == Ids(live) - {id} && Shrinks(live, rest)
  {
    if rest != live || exists l :: l in live && Id(l) == id {
      var i: nat :| i < |live| && Id(live[i]) == id && rest == Without(live, i);
      WithoutIds(live, i);
    }
  }

  /** What is left in the journal of a replayed range was reconciled before. */
  ghost predicate Settled(chain: seq<Log>, c: Cursor, live: seq<Log>, to: int) {
    forall l :: l in live && c.next <= l.number <= to ==> exists r :: r in chain && Id(r) == Id(l) && Reconciled(c, r)
  }

  lemma OldOfRange(chain: seq<Log>, logs: seq<Log>, from: nat, to: nat, s: Story, j: nat)
    requires Confirming(chain, logs, from, to, s, 0) && j < |logs|
    ensures Below(chain, from) + j < |chain| && logs[j] == chain[Below(chain, from) + j]
    ensures Below(chain, from) + j < |ConfirmedOf(s.deliveries)| ==> Reconciled(s.cursor, logs[j])
  {
  }

  /** A log of the range that is still journaled was confirmed before. */
  lemma LeftIsOld(chain: seq<Log>, logs: seq<Log>, from: nat, to: nat, before: Story, after: Story, l: Log) returns (r: Log)
    requires Confirming(chain, logs, from, to, before, 0)
    requires Cleared(chain, logs, from, |ConfirmedOf(before.deliveries)|, after, |logs|)
    requires l in after.live && Id(l) in Ids(logs)
    ensures r in chain && Id(r) == Id(l) && Reconciled(before.cursor, r)
  {
    r :| r in logs && Id(r) == Id(l);
    var j :| 0 <= j < |logs| && logs[j] == r;
    OldOfRange(chain, logs, from, to, before, j);
    assert Id(l) in Ids(after.live);
  }

  /** The answer has every journaled log of the range. */
  ghost predicate Answers(raw: seq<Log>, live: seq<Log>, from: nat, to: nat) {
    forall l :: l in live && from <= l.number <= to ==> Id(l) in Ids(raw)
  }

  lemma WalkSettles(chain: seq<Log>, raw: seq<Log>, logs: seq<Log>, to: nat, before: Story, after: Story)
    requires Confirming(chain, logs, before.cursor.next, to, before, 0) && multiset(raw) == multiset(logs)
    requires Walking(chain, logs, before.cursor.next, to, |ConfirmedOf(before.deliveries)|, after, |logs|)
    requires Shrinks(before.live, after.live) && Answers(raw, before.live, before.cursor.next, to)
    ensures Settled(chain, before.cursor, after.live, to)
  {
    SortedIds(raw, logs);
    forall l | l in after.live && before.cursor.next <= l.number <= to
      ensures exists r :: r in chain && Id(r) == Id(l) && Reconciled(before.cursor, r)
    {
      var r := LeftIsOld(chain, logs, before.cursor.next, to, before, after, l);
    }
  }

  lemma FinishKeeps(s: Story, to: nat, hash: Hash)
    requires LaneOk(s)
    ensures LaneOk(FinishRange(s, to, hash))
  {
  }

  lemma FinishesConfirming(chain: seq<Log>, logs: seq<Log>, from: nat, to: nat, s: Story, hash: Hash)
    requires Confirming(chain, logs, from, to, s, |logs|)
    ensures OnTrack(chain, FinishRange(s, to, hash))
  {
    var k := |ConfirmedOf(s.deliveries)|;
    forall i | 0 <= i < |chain| ensures i < k <==> chain[i].number <= to {
      BelowSplits(chain, to + 1, i);
    }
    FinishesRange(chain, s, k, to, hash);
  }

  /** Every log below the cursor has been confirmed, once and in order. */
  lemma ConfirmedBelowCursor(chain: seq<Log>, s: Story, i: nat)
    requires ChainLogs(chain) && OnTrack(chain, s) && i < |chain| && chain[i].number < s.cursor.next
    ensures ConfirmedOf(s.deliveries) == chain[..|ConfirmedOf(s.deliveries)|] && i < |ConfirmedOf(s.deliveries)|
  {
  }

  /** A new source is on track for the chain from its start on. */
  lemma StartsOnTrack(chain: seq<Log>, start: nat)
    requires forall i :: 0 <= i < |chain| ==> chain[i].number >= start
    ensures OnTrack(chain, Story(Cursor(start, "", "", 0), [], []))
  {
  }

  lemma SortedIds(raw: seq<Log>, logs: seq<Log>)
    requires multiset(raw) == multiset(logs)
    ensures Ids(raw) == Ids(logs)
  {
    assert forall l :: l in raw <==> l in multiset(logs);
    assert forall l :: l in logs <==> l in multiset(logs);
  }

  lemma BoundaryStays(env: Environment, asked: seq<Question>, more: seq<Question>, at: nat, c: Cursor)
    requires asked <= more && (Anchored(c) ==> at < |asked|)
    ensures BoundaryMoved(env, more, at, c) <==> BoundaryMoved(env, asked, at, c)
  {
    assert at < |asked| ==> more[at] == asked[at];
  }

  lemma WithheldSince(env: Environment, asked: seq<Question>, from: nat, mid: nat, low: nat, live: seq<Log>)
    requires from <= mid
    ensures Withheld(env, asked, mid, low, live) ==> Withheld(env, asked, from, low, live)
  {
  }

  /** The answer holds the chain's logs of the range that starts at the cursor. */
  ghost predicate Ranged(chain: seq<Log>, s: Story, to: nat, raw: seq<Log>) {
    && ChainLogs(chain) && OnTrack(chain, s)
    && multiset(raw) == multiset(Between(chain, s.cursor.next, to))
  }

  ghost predicate Followed(env: Environment, chain: seq<Log>, confirmations: nat, s: Story) {
    ServesLogs(env, chain, confirmations) && ChainLogs(chain) && OnTrack(chain, s)
  }

  /** The range up to `to` is done, and the cursor remembers the hash of its last block; the journal only shrank. */
  ghost predicate Advanced(env: Environment, since: nat, before: Story, after: Story, to: nat) {
    && before.cursor.next <= to && after.cursor.next == to + 1 && after.cursor.current == ""
    && (exists at: nat :: since <= at && env.blocks(at, to) == Some(after.cursor.parent))
    && Shrinks(before.live, after.live)
  }

  /** The cursor moved past `to` with the hash that block was answered to have. */
  ghost predicate Finishes(env: Environment, since: nat, before: Story, after: Story, to: nat) {
    exists at: nat :: since <= at && env.blocks(at, to).Some? && after == FinishRange(before, to, env.blocks(at, to).value)
  }

  /** A whole range confirmed by the head of call `e` is done. */
  ghost predicate Moves(env: Environment, e: nat, confirmations: nat, before: Story, after: Story) {
    exists to :: Confirms(env, e, confirmations, to) && Advanced(env, e, before, after, to)
  }

  lemma MovesSince(env: Environment, e: nat, later: nat, confirmations: nat, before: Story, after: Story, to: nat)
    requires e <= later && Confirms(env, e, confirmations, to) && Advanced(env, later, before, after, to)
    ensures Moves(env, e, confirmations, before, after)
  {
    assert Advanced(env, e, before, after, to);
  }

  /** One journaled log was taken back, and the cursor stays. */
  ghost predicate Orphaned(before: Story, after: Story) {
    && after.cursor == before.cursor && |after.live| < |before.live|
    && forall l :: l in after.live ==> l in before.live
  }

  // ---- An endpoint that answers -------------------------------------------------------------------------------------

  /** From call `since` on the head stands still, and no question about confirmed blocks is refused. */
  ghost predicate Steady(env: Environment, since: nat, head: nat, confirmations: nat, hash: nat -> Hash) {
    && (forall at :: since <= at ==> env.heads(at) == Some(head))
    && (forall at, q :: since <= at && Within(q, head - confirmations) ==> !Refused(env, at, q))
    && (forall at, n: nat :: since <= at && n + confirmations <= head ==> env.blocks(at, n) == Some(hash(n)))
  }

  /** A cursor that remembers a block of the confirmed chain. */
  predicate Bounded(hash: nat -> Hash, c: Cursor) {
    Anchored(c) ==> hash(AnchorBlock(c)) == AnchorHash(c)
  }

  /** The journaled logs of these blocks are the chain's wherever their block is, and a log's block has one number. */
  ghost predicate Honest(hash: nat -> Hash, chain: seq<Log>, live: seq<Log>, low: nat, high: int) {
    forall l :: l in live && low <= l.number <= high ==>
      && (hash(l.number) == l.hash ==> Id(l) in Ids(chain))
      && forall c :: c in chain && Id(c) == Id(l) ==> c.number == l.number
  }

  lemma InRange(chain: seq<Log>, c: Log, from: nat, to: nat)
    requires ChainLogs(chain) && c in chain && from <= c.number <= to
    ensures c in Between(chain, from, to)
  {
    var i :| 0 <= i < |chain| && chain[i] == c;
    BelowSplits(chain, from, i);
    BelowSplits(chain, to + 1, i);
    assert Between(chain, from, to)[i - Below(chain, from)] == c;
  }

  lemma NothingWithheld(env: Environment, asked: seq<Question>, from: nat, head: nat, confirmations: nat,
                        hash: nat -> Hash, chain: seq<Log>,
                        low: nat, live: seq<Log>)
    requires Steady(env, from, head, confirmations, hash) && ServesLogs(env, chain, confirmations) && ChainLogs(chain)
    requires from < |asked| && asked[from] == HeadAsked && AsksUpTo(asked, from, head - confirmations)
    requires Honest(hash, chain, live, low, head - confirmations)
    ensures !Withheld(env, asked, from, low, live)
  {
    forall e, high | from <= e < |asked| && asked[e] == LogsAsked(low, high) && env.logs(e, low, high).Some?
      ensures !Withholds(env, asked, e + 1, low, high, env.logs(e, low, high).value, live)
    {
      RangeServed(env, asked, e, from, head, confirmations, hash, chain, low, high);
      NothingMissing(env, asked, e + 1, from, head, confirmations, hash, chain, low, high, env.logs(e, low, high).value, live);
    }
  }

  lemma RangeServed(env: Environment, asked: seq<Question>, e: nat, from: nat, head: nat, confirmations: nat,
                    hash: nat -> Hash, chain: seq<Log>,
                    low: nat, high: nat)
    requires Steady(env, from, head, confirmations, hash) && ServesLogs(env, chain, confirmations)
    requires from <= e < |asked| && asked[from] == HeadAsked && asked[e] == LogsAsked(low, high) && env.logs(e, low, high).Some?
    requires AsksUpTo(asked, from, head - confirmations)
    ensures high + confirmations <= head && multiset(env.logs(e, low, high).value) == multiset(Between(chain, low, high))
  {
    assert Within(asked[e], head - confirmations);
    assert Confirms(env, from, confirmations, high);
  }

  lemma NothingMissing(env: Environment, asked: seq<Question>, e: nat, since: nat, head: nat, confirmations: nat,
                       hash: nat -> Hash, chain: seq<Log>,
                       low: nat, high: nat, answer: seq<Log>, live: seq<Log>)
    requires Steady(env, since, head, confirmations, hash) && since <= e && ChainLogs(chain) && high + confirmations <= head
    requires Honest(hash, chain, live, low, head - confirmations) && multiset(answer) == multiset(Between(chain, low, high))
    ensures !Withholds(env, asked, e, low, high, answer, live)
  {
    forall at, l | e <= at < |asked| && l in live && low <= l.number <= high && env.blocks(at, l.number) == Some(l.hash)
      ensures Id(l) in Ids(answer)
    {
      assert env.blocks(at, l.number) == Some(hash(l.number));
      var c :| c in chain && Id(c) == Id(l);
      InRange(chain, c, low, high);
      SortedIds(answer, Between(chain, low, high));
    }
  }

  lemma NothingFails(env: Environment, asked: seq<Question>, from: nat, head: nat, confirmations: nat, hash: nat -> Hash,
                     c: Cursor)
    requires Steady(env, from, head, confirmations, hash) && AsksUpTo(asked, from, head - confirmations) && Bounded(hash, c)
    ensures !Failed(env, asked, from) && !BoundaryMoved(env, asked, from + 1, c)
  {
    assert from + 1 < |asked| ==> Within(asked[from + 1], head - confirmations);
  }

  lemma LaterSteady(env: Environment, since: nat, later: nat, head: nat, confirmations: nat, hash: nat -> Hash)
    requires Steady(env, since, head, confirmations, hash) && since <= later
    ensures Steady(env, later, head, confirmations, hash)
  {
  }

  /** A round moves the cursor along the chain, or takes a journaled log back. */
  lemma RoundKeeps(env: Environment, since: nat, head: nat, confirmations: nat, hash: nat -> Hash, chain: seq<Log>,
                   before: Story, after: Story, to: nat)
    requires Steady(env, since, head, confirmations, hash) && to + confirmations <= head && Advanced(env, since, before, after, to)
    requires Honest(hash, chain, before.live, before.cursor.next, head - confirmations)
    ensures Bounded(hash, after.cursor) && Honest(hash, chain, after.live, after.cursor.next, head - confirmations)
  {
  }

  /** What is left in the journal after two stretches of replay was reconciled before the first. */
  lemma SettlesOn(hash: nat -> Hash, chain: seq<Log>, c: Cursor, before: Story, after: Story, high: int)
    requires ChainLogs(chain) && Settled(chain, c, before.live, before.cursor.next - 1) && Shrinks(before.live, after.live)
    requires before.cursor == c || (before.cursor.current == "" && c.next <= before.cursor.next)
    requires Settled(chain, before.cursor, after.live, after.cursor.next - 1) && after.cursor.next - 1 <= high
    requires Honest(hash, chain, before.live, before.cursor.next, high)
    ensures Settled(chain, c, after.live, after.cursor.next - 1)
  {
    forall l | l in after.live && c.next <= l.number <= after.cursor.next - 1
      ensures exists r :: r in chain && Id(r) == Id(l) && Reconciled(c, r)
    {
      if l.number >= before.cursor.next {
        var r :| r in chain && Id(r) == Id(l) && Reconciled(before.cursor, r);
        assert r.hash != "" && r.number == l.number;
      }
    }
  }

  /** What replay rounds keep once the endpoint answers. */
  ghost predicate Closing(env: Environment, clock: nat, head: nat, confirmations: nat, hash: nat -> Hash,
                          chain: seq<Log>, start: Cursor, s: Story) {
    && Followed(env, chain, confirmations, s) && Steady(env, clock, head, confirmations, hash)
    && Bounded(hash, s.cursor) && Honest(hash, chain, s.live, s.cursor.next, head - confirmations)
    && (s.cursor == start || (s.cursor.current == "" && start.next <= s.cursor.next))
    && Settled(chain, start, s.live, s.cursor.next - 1)
  }

  lemma ClosingMoves(env: Environment, at: nat, clock: nat, head: nat, confirmations: nat, hash: nat -> Hash,
                     chain: seq<Log>, start: Cursor,
                     before: Story, after: Story)
    requires Closing(env, at, head, confirmations, hash, chain, start, before) && at <= clock
    requires Moves(env, at, confirmations, before, after) && OnTrack(chain, after)
    requires Settled(chain, before.cursor, after.live, after.cursor.next - 1)
    ensures Closing(env, clock, head, confirmations, hash, chain, start, after) && before.cursor.next < after.cursor.next <= head + 1
  {
    var to :| Confirms(env, at, confirmations, to) && Advanced(env, at, before, after, to);
    LaterSteady(env, at, clock, head, confirmations, hash);
    RoundKeeps(env, at, head, confirmations, hash, chain, before, after, to);
    SettlesOn(hash, chain, start, before, after, head - confirmations);
  }

  lemma ClosingStays(env: Environment, at: nat, clock: nat, head: nat, confirmations: nat, hash: nat -> Hash,
                     chain: seq<Log>, start: Cursor,
                     before: Story, after: Story)
    requires Closing(env, at, head, confirmations, hash, chain, start, before) && at <= clock
    requires (after == before || Orphaned(before, after)) && OnTrack(chain, after)
    ensures Closing(env, clock, head, confirmations, hash, chain, start, after)
  {
    LaterSteady(env, at, clock, head, confirmations, hash);
  }

  lemma ConfirmedUpTo(chain: seq<Log>, s: Story, c: Log)
    requires ChainLogs(chain) && OnTrack(chain, s) && c in chain && c.number < s.cursor.next
    ensures c in ConfirmedOf(s.deliveries)
  {
    var i :| 0 <= i < |chain| && chain[i] == c;
    ConfirmedBelowCursor(chain, s, i);
    assert chain[..|ConfirmedOf(s.deliveries)|][i] == c;
  }

  datatype Input = Message(log: Log, removed: bool) | Tick | Restart

  class Source {
    const env: Environment
    const confirmations: nat
    const rangeSize: nat

    /** The durable checkpoints, and the story behind them. */
    var savedCursor: Cursor
    var savedLive: seq<Log>
    ghost var story: Story
    /** The running source's copies, how many outside calls were made, and what they asked. */
    var cursor: Cursor
    var live: seq<Log>
    var clock: nat
    ghost var asked: seq<Question>

    ghost predicate Valid()
      reads this
    {
      && WellFormed(env) && rangeSize > 0 && |asked| == clock
      && story.cursor == savedCursor && story.live == savedLive && LaneOk(story)
    }

    /** The running copies are the durable ones. */
    predicate InStep()
      reads this
    {
      cursor == savedCursor && live == savedLive
    }

    /** loadCursor and loadLive on first use. */
    constructor (env: Environment, confirmations: nat, rangeSize: nat, start: nat)
      requires WellFormed(env) && rangeSize > 0
      ensures Valid() && InStep() && this.env == env && story == Story(Cursor(start, "", "", 0), [], [])
    {
      this.env, this.confirmations, this.rangeSize := env, confirmations, rangeSize;
      savedCursor, cursor := Cursor(start, "", "", 0), Cursor(start, "", "", 0);
      savedLive, live, clock, asked := [], [], 0, [];
      story := Story(Cursor(start, "", "", 0), [], []);
      new;
      assert Ids([]) == {};
    }

    /** loadCursor and loadLive after a restart: what was saved passes their checks. */
    method Load() returns (accepted: bool)
      requires Valid()
      modifies this`cursor, this`live
      ensures accepted && InStep()
    {
      if (savedCursor.current == "") != (savedCursor.nextLog == 0) || |savedLive| > MAX_LIVE {
        return false;
      }
      cursor, live := savedCursor, savedLive;
      return true;
    }

    /** One call to the outside. */
    method Ask(ghost q: Question) returns (at: nat)
      requires |asked| == clock
      modifies this`clock, this`asked
      ensures at == old(clock) && clock == at + 1 && |asked| == clock && asked == old(asked) + [q]
      ensures forall from: nat :: from <= at ==> (Failed(env, asked, from) <==> Failed(env, old(asked), from) || Refused(env, at, q))
    {
      at := clock;
      forall from: nat | from <= at ensures Failed(env, asked + [q], from) <==> Failed(env, asked, from) || Refused(env, at, q) {
        Asks(env, asked, from, q);
      }
      clock := clock + 1;
      asked := asked + [q];
    }

    /** commit: update, cursor and journal become durable together, or not at all. */
    method CommitStory(c: Cursor, l: seq<Log>, ghost after: Story) returns (done: bool)
      requires Valid() && LaneOk(after) && after.cursor == c && after.live == l
      modifies this
      ensures Valid() && asked == old(asked) + [CommitAsked] && (story == old(story) || story == after)
      ensures done ==> story == after && InStep()
      ensures done <==> !Refused(env, old(clock), CommitAsked)
      ensures forall from: nat :: from <= old(clock) ==> (Failed(env, asked, from) <==> Failed(env, old(asked), from) || !done)
    {
      var at := Ask(CommitAsked);
      var ending := env.commits(at);
      if ending != Undone {
        savedCursor, savedLive, story := c, l, after;
      }
      if ending == Done {
        cursor, live := c, l;
      }
      return ending == Done;
    }

    /** The handler's update and the new checkpoints, together. */
    method Deliver(c: Cursor, l: seq<Log>, ghost after: Story) returns (r: Outcome)
      requires Valid() && InStep() && LaneOk(after) && after.cursor == c && after.live == l
      modifies this
      ensures Valid() && (r == Fine ==> InStep()) && old(asked) < asked && AsksUpTo(asked, old(clock), 0)
      ensures story == old(story) || story == after
      ensures r == Fine ==> story == after
      ensures forall from: nat :: from <= old(clock) ==> (Failed(env, asked, from) <==> Failed(env, old(asked), from) || r == Fails)
    {
      var at := Ask(HandleAsked);
      if !env.handles(at) {
        return Fails;
      }
      var done := CommitStory(c, l, after);
      return if done then Fine else Fails;
    }

    /** Take the journal entry at `index` back. */
    method TakeBack(index: nat) returns (r: Outcome)
      requires Valid() && InStep() && index < |live|
      modifies this
      ensures Valid() && (r == Fine ==> InStep()) && old(asked) < asked && AsksUpTo(asked, old(clock), 0)
      ensures story == old(story) || (index < |old(story).live| && story == DeliverRemoved(old(story), index))
      ensures r == Fine ==> index < |old(story).live| && story == DeliverRemoved(old(story), index)
      ensures forall from: nat :: from <= old(clock) ==> (Failed(env, asked, from) <==> Failed(env, old(asked), from) || r == Fails)
    {
      RemovedKeeps(story, index);
      r := Deliver(cursor, Without(live, index), DeliverRemoved(story, index));
    }

    /** handleLive. */
    method HandleLive(log: Log, removed: bool) returns (r: Outcome)
      requires Valid() && InStep()
      modifies this
      ensures Valid() && (r == Fine ==> InStep()) && old(asked) <= asked
      ensures story == old(story) || Heard(old(story), story, log, removed)
      ensures r == Fine ==> Heard(old(story), story, log, removed)
      ensures r == Fine && !removed && !Journals(old(story).live, log) ==>
        story.live == old(story).live + [log] && story.deliveries == old(story).deliveries + [Live(log)]
      ensures r == Fine && removed && Journals(old(story).live, log) ==>
        exists l :: l in old(story).live && l.hash == log.hash && l.tx == log.tx && l.index == log.index
                    && story.deliveries == old(story).deliveries + [Removed(l)]
      ensures removed != Journals(old(story).live, log) ==> story == old(story)
      ensures r == Fails <==>
        Failed(env, asked, old(clock)) || (!removed && |old(story).live| == MAX_LIVE && Id(log) !in Ids(old(story).live))
      ensures forall chain :: OnTrack(chain, old(story)) ==> OnTrack(chain, story)
      ensures story.cursor == old(story).cursor
    {
      var index := LiveLogIndex(live, Id(log));
      ghost var before := story;
      if removed {
        if index < 0 {
          return Fine;
        }
        r := TakeBack(index);
        LaneStays(before, story, index, log);
        return;
      }
      if index >= 0 {
        return Fine;
      }
      if |live| == MAX_LIVE {
        return Fails;
      }
      LiveKeeps(story, log);
      r := Deliver(cursor, live + [log], DeliverLive(story, log));
      LaneStays(before, story, 0, log);
    }

    /** A journaled log the range does not have: its block tells whether it is gone or only withheld. */
    method RemoveOrphan(index: nat, low: nat, high: nat, canonical: seq<Log>) returns (r: OrphanEnd)
      requires Valid() && InStep() && index < |live| && low <= live[index].number <= high
      requires forall c :: c in canonical ==> Id(c) != Id(live[index])
      modifies this
      ensures Valid() && (r != OrphanFails ==> InStep()) && old(asked) < asked && AsksUpTo(asked, old(clock), high)
      ensures r != NoOrphan && Lanes(old(story), story)
      ensures r == OrphanRemoved ==> TookOrphan(env, asked, old(clock), low, high, canonical, old(story), story)
      ensures r == OrphanFails ==>
        Failed(env, asked, old(clock)) || Withholds(env, asked, old(clock), low, high, canonical, old(story).live)
      ensures r == OrphanRemoved ==> !Failed(env, asked, old(clock))
    {
      var observed := live[index];
      var at := Ask(BlockAsked(observed.number));
      var block := env.blocks(at, observed.number);
      if block.None? {
        return OrphanFails;
      }
      if block.value == observed.hash {
        assert asked[at] == BlockAsked(observed.number);
        return OrphanFails;
      }
      var taken := TakeBack(index);
      assert asked[at] == BlockAsked(observed.number);
      r := if taken == Fine then OrphanRemoved else OrphanFails;
    }

    /** reconcileRangeOrphan: take back the first journaled log of the range that the chain no longer has. */
    method ReconcileRangeOrphan(from: nat, to: nat, canonical: seq<Log>) returns (r: OrphanEnd)
      requires Valid() && InStep()
      modifies this
      ensures Valid() && (r != OrphanFails ==> InStep()) && old(asked) <= asked && AsksUpTo(asked, old(clock), to)
      ensures Lanes(old(story), story)
      ensures r == OrphanRemoved ==> TookOrphan(env, asked, old(clock), from, to, canonical, old(story), story)
      ensures r == OrphanFails ==>
        Failed(env, asked, old(clock)) || Withholds(env, asked, old(clock), from, to, canonical, old(story).live)
      ensures r != OrphanFails ==> !Failed(env, asked, old(clock))
      ensures r == NoOrphan ==> story == old(story) && asked == old(asked)
      ensures r == NoOrphan ==> Answers(canonical, story.live, from, to)
    {
      for index := 0 to |live|
        invariant Valid() && InStep() && story == old(story) && asked == old(asked)
        invariant forall i :: 0 <= i < index && from <= live[i].number <= to ==> Id(live[i]) in Ids(canonical)
      {
        var observed := live[index];
        if from <= observed.number <= to {
          var known := LiveLogIndex(canonical, Id(observed));
          if known >= 0 {
            assert canonical[known] in canonical;
          } else {
            r := RemoveOrphan(index, from, to, canonical);
            return;
          }
        }
      }
      return NoOrphan;
    }

    /** Confirm one log and close its live delivery, if it has one. */
    method ConfirmLog(log: Log) returns (r: Outcome, ghost rest: seq<Log>)
      requires Valid() && InStep() && log.hash != ""
      modifies this
      ensures Valid() && (r == Fine ==> InStep()) && old(asked) < asked && AsksUpTo(asked, old(clock), 0)
      ensures Closes(old(story).live, Id(log), rest) && Shrinks(old(story).live, story.live)
      ensures story == old(story) || story == DeliverConfirmed(old(story), log, rest)
      ensures r == Fine ==> story == DeliverConfirmed(old(story), log, rest)
      ensures forall from: nat :: from <= old(clock) ==> (Failed(env, asked, from) <==> Failed(env, old(asked), from) || r == Fails)
    {
      var index := LiveLogIndex(live, Id(log));
      var left := if index >= 0 then Without(live, index) else live;
      rest := left;
      ConfirmedKeeps(story, log, rest);
      ClosesIds(story.live, Id(log), rest);
      r := Deliver(Cursor(log.number, cursor.parent, log.hash, log.index + 1), left, DeliverConfirmed(story, log, rest));
    }

    /** The replay loop over one sorted range. */
    method ConfirmLogs(logs: seq<Log>, ghost chain: seq<Log>, ghost from: nat, ghost to: nat) returns (r: Outcome)
      requires Valid() && InStep() && forall l :: l in logs ==> l.hash != ""
      modifies this
      ensures Valid() && (r == Fine ==> InStep()) && old(asked) <= asked && AsksUpTo(asked, old(clock), 0)
      ensures r == Fails <==> Failed(env, asked, old(clock))
      ensures Shrinks(old(story).live, story.live)
      ensures Confirming(chain, logs, from, to, old(story), 0) ==> OnTrack(chain, story)
      ensures Confirming(chain, logs, from, to, old(story), 0) && r == Fine ==>
        Walking(chain, logs, from, to, |ConfirmedOf(old(story).deliveries)|, story, |logs|)
    {
      ghost var steady, k := Confirming(chain, logs, from, to, story, 0), |ConfirmedOf(story.deliveries)|;
      for i := 0 to |logs|
        invariant Valid() && InStep() && old(asked) <= asked && AsksUpTo(asked, old(clock), 0)
        invariant !Failed(env, asked, old(clock)) && Shrinks(old(story).live, story.live)
        invariant steady ==> Walking(chain, logs, from, to, k, story, i)
      {
        ghost var before := story;
        if Reconciled(cursor, logs[i]) {
          if steady {
            WalksOver(chain, logs, from, to, k, before, i);
          }
        } else {
          assert logs[i] in logs;
          ghost var rest;
          r, rest := ConfirmLog(logs[i]);
          if steady {
            WalksOn(chain, logs, from, to, k, before, i, rest);
          }
          if r == Fails {
            return;
          }
        }
      }
      return Fine;
    }

    /** validateBoundary: the block the cursor stands in, or the one before it, is still the same. */
    method ValidateBoundary() returns (ok: bool)
      requires Valid() && InStep()
      modifies this`clock, this`asked
      ensures |asked| == clock && old(asked) <= asked && AsksUpTo(asked, old(clock), cursor.next)
      ensures ok <==> !Failed(env, asked, old(clock)) && !BoundaryMoved(env, asked, old(clock), cursor)
      ensures Anchored(cursor) ==> clock > old(clock)
    {
      if cursor.current != "" {
        var at := Ask(BlockAsked(cursor.next));
        return env.blocks(at, cursor.next) == Some(cursor.current);
      }
      if cursor.next == 0 || cursor.parent == "" {
        return true;
      }
      var at := Ask(BlockAsked(cursor.next - 1));
      return env.blocks(at, cursor.next - 1) == Some(cursor.parent);
    }

    /** The range is confirmed: its last block's hash goes into the cursor. */
    method FinishReplay(to: nat) returns (r: Outcome)
      requires Valid() && InStep()
      modifies this
      ensures Valid() && (r == Fine ==> InStep()) && old(asked) <= asked && AsksUpTo(asked, old(clock), to)
      ensures r == Fails <==> Failed(env, asked, old(clock))
      ensures story == old(story) || Finishes(env, old(clock), old(story), story, to)
      ensures r == Fine ==> Finishes(env, old(clock), old(story), story, to)
    {
      var at := Ask(BlockAsked(to));
      var end := env.blocks(at, to);
      if end.None? {
        return Fails;
      }
      FinishKeeps(story, to, end.value);
      var done := CommitStory(Cursor(to + 1, end.value, "", 0), live, FinishRange(story, to, end.value));
      return if done then Fine else Fails;
    }

    /** The replay of one range: sort its logs, confirm what is new, move past its end. */
    method ReplayRange(to: nat, raw: seq<Log>, ghost chain: seq<Log>) returns (r: Outcome)
      requires Valid() && InStep() && cursor.next <= to && forall l :: l in raw ==> l.hash != ""
      requires Answers(raw, live, cursor.next, to)
      modifies this
      ensures Valid() && (r == Fine ==> InStep()) && old(asked) <= asked && AsksUpTo(asked, old(clock), to)
      ensures r == Fails <==> Failed(env, asked, old(clock))
      ensures r == Fine ==> Advanced(env, old(clock), old(story), story, to)
      ensures Ranged(chain, old(story), to, raw) ==> OnTrack(chain, story)
      ensures Ranged(chain, old(story), to, raw) && r == Fine ==> Settled(chain, old(story).cursor, story.live, to)
    {
      ghost var from, before := cursor.next, story;
      ghost var steady := Ranged(chain, story, to, raw);
      var logs := Sort(Before, raw);
      SortBag(Before, raw);
      assert forall l :: l in logs ==> l in multiset(raw);
      if steady {
        StartsConfirming(chain, from, to, raw, story);
      }
      r := ConfirmLogs(logs, chain, from, to);
      AsksSince(asked, asked, old(clock), 0, to);
      if r == Fails {
        return;
      }
      ghost var confirmed, now := story, asked;
      if steady {
        WalkSettles(chain, raw, logs, to, before, story);
      }
      r := FinishReplay(to);
      FailedSince(env, now, asked, old(clock));
      AsksSince(now, asked, old(clock), to, to);
      if steady && story != confirmed {
        var at: nat :| env.blocks(at, to).Some? && story == FinishRange(confirmed, to, env.blocks(at, to).value);
        FinishesConfirming(chain, logs, from, to, confirmed, env.blocks(at, to).value);
      }
    }

    /** At most one orphan of the range is taken back, otherwise the range is replayed. */
    method SettleRange(to: nat, raw: seq<Log>, ghost chain: seq<Log>) returns (r: OrphanEnd)
      requires Valid() && InStep() && cursor.next <= to && forall l :: l in raw ==> l.hash != ""
      modifies this
      ensures Valid() && (r != OrphanFails ==> InStep()) && old(asked) <= asked && AsksUpTo(asked, old(clock), to)
      ensures r == NoOrphan ==> Advanced(env, old(clock), old(story), story, to)
      ensures r == OrphanRemoved ==> Orphaned(old(story), story)
      ensures r == OrphanFails ==>
        Failed(env, asked, old(clock)) || Withholds(env, asked, old(clock), old(story).cursor.next, to, raw, old(story).live)
      ensures r != OrphanFails ==> !Failed(env, asked, old(clock))
      ensures Ranged(chain, old(story), to, raw) ==> OnTrack(chain, story)
      ensures Ranged(chain, old(story), to, raw) && r == NoOrphan ==> Settled(chain, old(story).cursor, story.live, to)
    {
      ghost var before := story;
      r := ReconcileRangeOrphan(cursor.next, to, raw);
      LanesTrack(before, story);
      if r == OrphanRemoved {
        OrphanShrinks(before, story);
      }
      if r != NoOrphan {
        return;
      }
      var replayed := ReplayRange(to, raw, chain);
      if replayed == Fails {
        r := OrphanFails;
      }
    }

    /** The rest of reconcileOne: the logs of the range, and what they settle. */
    method ReconcileRange(to: nat, ghost chain: seq<Log>, ghost e: nat) returns (r: OrphanEnd)
      requires Valid() && InStep() && cursor.next <= to
      requires e < clock && Confirms(env, e, confirmations, to)
      modifies this
      ensures Valid() && (r != OrphanFails ==> InStep()) && old(asked) <= asked && AsksUpTo(asked, old(clock), to)
      ensures r == NoOrphan ==> Advanced(env, old(clock), old(story), story, to)
      ensures r == OrphanRemoved ==> Orphaned(old(story), story)
      ensures r == OrphanFails ==> Failed(env, asked, old(clock)) || Withheld(env, asked, old(clock), old(story).cursor.next, old(story).live)
      ensures r != OrphanFails ==> !Failed(env, asked, old(clock))
      ensures Followed(env, chain, confirmations, old(story)) ==> OnTrack(chain, story)
      ensures Followed(env, chain, confirmations, old(story)) && r == NoOrphan ==> Settled(chain, old(story).cursor, story.live, to)
    {
      ghost var from := cursor.next;
      var at := Ask(LogsAsked(cursor.next, to));
      var raw := env.logs(at, cursor.next, to);
      if raw.None? {
        return OrphanFails;
      }
      ghost var now := asked;
      r := SettleRange(to, raw.value, chain);
      FailedSince(env, now, asked, old(clock));
      AsksSince(now, asked, old(clock), to, to);
      assert asked[at] == LogsAsked(from, to);
    }

    /** reconcileOne, once the range is known: the boundary, and then the range. */
    method ReconcileBounded(to: nat, ghost chain: seq<Log>, ghost e: nat) returns (r: OrphanEnd)
      requires Valid() && InStep() && cursor.next <= to && e < clock && Confirms(env, e, confirmations, to)
      modifies this
      ensures Valid() && (r != OrphanFails ==> InStep()) && old(asked) <= asked && AsksUpTo(asked, old(clock), to)
      ensures r == NoOrphan ==> Moves(env, e, confirmations, old(story), story) && story.cursor.next == to + 1
      ensures r == OrphanRemoved ==> Orphaned(old(story), story)
      ensures r == OrphanFails ==>
        || Failed(env, asked, old(clock)) || BoundaryMoved(env, asked, old(clock), old(story).cursor)
        || Withheld(env, asked, old(clock), old(story).cursor.next, old(story).live)
      ensures r != OrphanFails ==> !Failed(env, asked, old(clock)) && !BoundaryMoved(env, asked, old(clock), old(story).cursor)
      ensures Followed(env, chain, confirmations, old(story)) ==> OnTrack(chain, story)
      ensures Followed(env, chain, confirmations, old(story)) && r == NoOrphan ==> Settled(chain, old(story).cursor, story.live, to)
    {
      ghost var before, at := story, clock;
      var bounded := ValidateBoundary();
      AsksSince(asked, asked, at, before.cursor.next, to);
      if !bounded {
        return OrphanFails;
      }
      ghost var now := asked;
      r := ReconcileRange(to, chain, e);
      FailedSince(env, now, asked, at);
      AsksSince(now, asked, at, to, to);
      BoundaryStays(env, now, asked, at, before.cursor);
      WithheldSince(env, asked, at, |now|, before.cursor.next, before.live);
      if r == NoOrphan {
        MovesSince(env, e, |now|, confirmations, before, story, to);
      }
    }

    /** reconcileOne: one confirmed range, replayed behind the live lane. It breaks only when a call it made failed, the
        boundary moved or the endpoint withheld a log, and never goes on after one of the first two. */
    method ReconcileOne(ghost chain: seq<Log>) returns (r: Reconciling)
      requires Valid() && InStep()
      modifies this
      ensures Valid() && (r != Breaks ==> InStep()) && old(asked) <= asked && clock > old(clock) && asked[old(clock)] == HeadAsked
      ensures env.heads(old(clock)).Some? ==> AsksUpTo(asked, old(clock), env.heads(old(clock)).value - confirmations)
      ensures r == Breaks ==>
        || Failed(env, asked, old(clock)) || BoundaryMoved(env, asked, old(clock) + 1, old(story).cursor)
        || Withheld(env, asked, old(clock), old(story).cursor.next, old(story).live)
      ensures r != Breaks ==> !Failed(env, asked, old(clock)) && !BoundaryMoved(env, asked, old(clock) + 1, old(story).cursor)
      ensures r == Behind ==> Orphaned(old(story), story) || Moves(env, old(clock), confirmations, old(story), story)
      ensures r == CaughtUp ==>
        && env.heads(old(clock)).Some? && env.heads(old(clock)).value < story.cursor.next + confirmations
        && (story == old(story) || Moves(env, old(clock), confirmations, old(story), story))
      ensures Followed(env, chain, confirmations, old(story)) ==> OnTrack(chain, story)
      ensures Followed(env, chain, confirmations, old(story)) && r != Breaks && story.cursor.next > old(story).cursor.next ==>
        Settled(chain, old(story).cursor, story.live, story.cursor.next - 1)
    {
      ghost var before := story;
      var at := Ask(HeadAsked);
      var head := env.heads(at);
      if head.None? {
        return Breaks;
      }
      if head.value < confirmations {
        return CaughtUp;
      }
      var target := head.value - confirmations;
      if cursor.next > target {
        return CaughtUp;
      }
      var to := if cursor.next + rangeSize - 1 < target then cursor.next + rangeSize - 1 else target;
      ghost var now := asked;
      var replayed := ReconcileBounded(to, chain, at);
      FailedSince(env, now, asked, at);
      AsksSince(now, asked, at, to, target);
      WithheldSince(env, asked, at, |now|, before.cursor.next, before.live);
      if replayed == OrphanFails {
        return Breaks;
      }
      return if replayed == OrphanRemoved || to != target then Behind else CaughtUp;
    }

    /** Any number of live messages, replay rounds and restarts; every failure ends the process and a new one loads
        what was saved. Whatever the live lane brings and wherever the calls fail, the confirmed deliveries stay a
        prefix of the confirmed chain, each log once. */
    method Follow(script: seq<Input>, ghost chain: seq<Log>)
      requires Valid() && InStep() && Followed(env, chain, confirmations, story)
      modifies this
      ensures Valid() && InStep() && OnTrack(chain, story)
    {
      for i := 0 to |script|
        invariant Valid() && InStep() && OnTrack(chain, story)
      {
        var failed := script[i].Restart?;
        if script[i].Message? {
          var r := HandleLive(script[i].log, script[i].removed);
          failed := r == Fails;
        } else if script[i].Tick? {
          var r := ReconcileOne(chain);
          failed := r == Breaks;
        }
        if failed {
          var accepted := Load();
          assert accepted;
        }
      }
    }

    /** Once calls succeed and the head stands still, replay rounds come to an end: every log of the chain up to the
        confirmed height is then confirmed, and of the journaled logs up to there only those are left that had been
        reconciled before. */
    method CatchUp(ghost chain: seq<Log>, ghost head: nat, ghost hash: nat -> Hash)
      requires Valid() && InStep() && Followed(env, chain, confirmations, story)
      requires Steady(env, clock, head, confirmations, hash) && Bounded(hash, story.cursor)
      requires Honest(hash, chain, story.live, story.cursor.next, head - confirmations)
      modifies this
      ensures Valid() && InStep() && OnTrack(chain, story) && head < story.cursor.next + confirmations
      ensures forall c :: c in chain && c.number + confirmations <= head ==> c in ConfirmedOf(story.deliveries)
      ensures Settled(chain, old(story).cursor, story.live, head - confirmations)
    {
      ghost var start := story.cursor;
      var r := Behind;
      while r == Behind
        invariant Valid() && InStep() && r != Breaks
        invariant Closing(env, clock, head, confirmations, hash, chain, start, story)
        invariant r == CaughtUp ==> head < story.cursor.next + confirmations
        decreases head + 1 - story.cursor.next, |story.live|, r == Behind
      {
        ghost var before, at := story, clock;
        r := ReconcileOne(chain);
        NothingFails(env, asked, at, head, confirmations, hash, before.cursor);
        NothingWithheld(env, asked, at, head, confirmations, hash, chain, before.cursor.next, before.live);
        if story.cursor.next > before.cursor.next {
          ClosingMoves(env, at, clock, head, confirmations, hash, chain, start, before, story);
        } else {
          ClosingStays(env, at, clock, head, confirmations, hash, chain, start, before, story);
        }
      }
      forall c | c in chain && c.number + confirmations <= head ensures c in ConfirmedOf(story.deliveries) {
        ConfirmedUpTo(chain, story, c);
      }
    }
  }
}
