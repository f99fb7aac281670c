/** catalog/quicknode/solana/events.go: transactions of one address, live first and settled by finalized history. */
module AddressEvents {
  type Signature = string

  datatype Option<+T> = None | Some(value: T)

  datatype Record = Record(slot: nat, index: nat, signature: Signature)

  /** The replay cursor: the last record it has passed. */
  datatype Cursor = Cursor(signature: Signature, slot: nat, index: nat)

  datatype Hint = Hint(matched: bool, handled: bool)

  const MAX_LIVE: nat := 256
  const PAGE: nat := 100

  /** What is durable: cursor and live journal, and the signatures whose updates were committed with them. */
  datatype Story = Story(cursor: Cursor, journal: seq<Signature>, updates: seq<Signature>)

  predicate Passed(c: Cursor, r: Record) {
    r.slot < c.slot || (r.slot == c.slot && r.index <= c.index)
  }

  ghost predicate Distinct(s: seq<Signature>) {
    forall i, j :: 0 <= i < j < |s| ==> s[i] != s[j]
  }

  /** The finalized history: records in order, each signature once. */
  ghost predicate History(chain: seq<Record>) {
    forall i, j :: 0 <= i < j < |chain| ==>
      chain[i].signature != chain[j].signature
      && (chain[i].slot < chain[j].slot || (chain[i].slot == chain[j].slot && chain[i].index < chain[j].index))
  }

  /** The cursor stands behind the first `k` records. */
  ghost predicate Behind(chain: seq<Record>, c: Cursor, k: nat) {
    k <= |chain| && forall i :: 0 <= i < |chain| ==> (i < k <==> Passed(c, chain[i]))
  }

  /** The record was among the first `k`. */
  ghost predicate Among(chain: seq<Record>, k: nat, s: Signature) {
    exists i :: 0 <= i < k && i < |chain| && chain[i].signature == s
  }

  /** A signature whose transaction matches and whose handler has something to say. */
  predicate Wanted(matches: Signature -> bool, says: Signature -> bool, s: Signature) {
    matches(s) && says(s)
  }

  /** No update twice; every update is behind the cursor or in the journal; every wanted record behind the cursor has
      its update, and so has every wanted journal entry, none of which the cursor has passed. (The cursor may have
      passed an unwanted journal entry; it stays there for good.) */
  ghost predicate Settled(chain: seq<Record>, matches: Signature -> bool, says: Signature -> bool, s: Story, k: nat) {
    && Behind(chain, s.cursor, k) && Distinct(s.updates)
    && (forall u :: u in s.updates ==> Wanted(matches, says, u) && (Among(chain, k, u) || u in s.journal))
    && (forall i :: 0 <= i < k ==> Wanted(matches, says, chain[i].signature) ==> chain[i].signature in s.updates)
    && (forall j :: j in s.journal && Wanted(matches, says, j) ==> !Among(chain, k, j) && j in s.updates)
  }

  ghost predicate JournalOk(s: Story) {
    |s.journal| <= MAX_LIVE && Distinct(s.journal)
  }

  // ---- The live lane ----------------------------------------------------------------------------------------

  function Updated(updates: seq<Signature>, wanted: bool, s: Signature): seq<Signature> {
    if wanted then updates + [s] else updates
  }

  function DeliverLive(s: Story, says: bool, sig: Signature): Story {
    s.(journal := s.journal + [sig], updates := Updated(s.updates, says, sig))
  }

  lemma LiveJournals(s: Story, says: bool, sig: Signature)
    requires JournalOk(s) && |s.journal| < MAX_LIVE && sig !in s.journal
    ensures JournalOk(DeliverLive(s, says, sig))
  {
  }

  /** A matching signature with nothing to say, or one the cursor has not passed, is delivered live. */
  lemma LiveSettles(chain: seq<Record>, matches: Signature -> bool, says: Signature -> bool, s: Story, k: nat, sig: Signature)
    requires Settled(chain, matches, says, s, k) && matches(sig) && sig !in s.journal && (says(sig) ==> !Among(chain, k, sig))
    ensures Settled(chain, matches, says, DeliverLive(s, says(sig), sig), k)
  {
  }

  /** A wanted signature delivered live gets a second update exactly when the cursor had passed it. */
  lemma LateIsTwice(chain: seq<Record>, matches: Signature -> bool, says: Signature -> bool, s: Story, k: nat, sig: Signature)
    requires Settled(chain, matches, says, s, k) && Wanted(matches, says, sig) && sig !in s.journal
    ensures Distinct(DeliverLive(s, true, sig).updates) <==> !Among(chain, k, sig)
  {
    if Among(chain, k, sig) {
      var i :| 0 <= i < k && i < |chain| && chain[i].signature == sig;
      var j :| 0 <= j < |s.updates| && s.updates[j] == sig;
      assert DeliverLive(s, true, sig).updates[j] == DeliverLive(s, true, sig).updates[|s.updates|];
    }
  }

  // ---- Replay ---------------------------------------------------------------------------------------------------

  function Drop(journal: seq<Signature>, index: nat): seq<Signature>
    requires index < |journal|
  {
    journal[..index] + journal[index + 1..]
  }

  lemma Drops(journal: seq<Signature>, index: nat)
    requires index < |journal| && Distinct(journal)
    ensures Distinct(Drop(journal, index)) && forall s :: s in Drop(journal, index) <==> s in journal && s != journal[index]
  {
    var rest := Drop(journal, index);
    forall i | 0 <= i < |rest| ensures rest[i] == journal[if i < index then i else i + 1] && rest[i] != journal[index] {
    }
    forall s | s in journal && s != journal[index] ensures s in rest {
      var i :| 0 <= i < |journal| && journal[i] == s;
      assert rest[if i < index then i else i - 1] == s;
    }
  }

  /** The journal once replay has reached `sig`: its entry is dropped if it has one. */
  ghost predicate Forgets(journal: seq<Signature>, sig: Signature, rest: seq<Signature>) {
    if sig in journal then exists i: nat :: i < |journal| && journal[i] == sig && rest == Drop(journal, i) else rest == journal
  }

  lemma DropForgets(journal: seq<Signature>, sig: Signature, index: int, rest: seq<Signature>)
    requires -1 <= index < |journal| && (if index < 0 then sig !in journal else journal[index] == sig)
    requires rest == if index >= 0 then Drop(journal, index) else journal
    ensures Forgets(journal, sig, rest)
  {
  }

  lemma ForgetsEntry(journal: seq<Signature>, sig: Signature, rest: seq<Signature>)
    requires Distinct(journal) && Forgets(journal, sig, rest)
    ensures Distinct(rest) && |rest| <= |journal| && forall s :: s in rest <==> s in journal && s != sig
  {
    if sig in journal {
      var i: nat :| i < |journal| && journal[i] == sig && rest == Drop(journal, i);
      Drops(journal, i);
    }
  }

  /** Replay commits record `r`: with its update unless the live lane already committed it. */
  function DeliverReplay(s: Story, r: Record, rest: seq<Signature>, updates: bool): Story {
    Story(Cursor(r.signature, r.slot, r.index), rest, Updated(s.updates, updates, r.signature))
  }

  /** Records from `k` up to `m` were passed in memory because there was nothing to commit for them. */
  ghost predicate Skipped(chain: seq<Record>, matches: Signature -> bool, says: Signature -> bool, s: Story, k: nat, m: nat) {
    && k <= m <= |chain|
    && forall i :: k <= i < m ==> !Wanted(matches, says, chain[i].signature) && chain[i].signature !in s.journal
  }

  lemma AmongNext(chain: seq<Record>, k: nat, m: nat, u: Signature)
    requires k <= m < |chain|
    ensures Among(chain, m + 1, u) <==> Among(chain, k, u) || (exists i :: k <= i < m && chain[i].signature == u) || u == chain[m].signature
  {
    if exists i :: k <= i < m && chain[i].signature == u {
      var i :| k <= i < m && chain[i].signature == u;
      assert 0 <= i < m + 1 && chain[i].signature == u;
    }
    if u == chain[m].signature {
      assert 0 <= m < m + 1 && chain[m].signature == u;
    }
  }

  lemma ReplaySettles(chain: seq<Record>, matches: Signature -> bool, says: Signature -> bool, s: Story, k: nat, m: nat,
                      rest: seq<Signature>, updates: bool)
    requires History(chain) && Settled(chain, matches, says, s, k) && Skipped(chain, matches, says, s, k, m) && m < |chain|
    requires Distinct(s.journal) && Forgets(s.journal, chain[m].signature, rest)
    requires updates == (chain[m].signature !in s.journal && Wanted(matches, says, chain[m].signature))
    ensures Settled(chain, matches, says, DeliverReplay(s, chain[m], rest, updates), m + 1)
  {
    var sig := chain[m].signature;
    var t := DeliverReplay(s, chain[m], rest, updates);
    ForgetsEntry(s.journal, sig, rest);
    ReplayCursor(chain, s, k, m, t.cursor);
    assert !Among(chain, k, sig);
    assert updates ==> sig !in s.updates;
    forall u | u in t.updates ensures Wanted(matches, says, u) && (Among(chain, m + 1, u) || u in t.journal) {
      AmongNext(chain, k, m, u);
    }
    forall j | j in t.journal && Wanted(matches, says, j) ensures !Among(chain, m + 1, j) && j in t.updates {
      AmongNext(chain, k, m, j);
    }
  }

  lemma ReplayCursor(chain: seq<Record>, s: Story, k: nat, m: nat, c: Cursor)
    requires History(chain) && k <= m < |chain| && c == Cursor(chain[m].signature, chain[m].slot, chain[m].index)
    ensures Behind(chain, c, m + 1)
  {
  }

  /** Committing a cursor that only passed records without anything to commit. */
  lemma SkipSettles(chain: seq<Record>, matches: Signature -> bool, says: Signature -> bool, s: Story, k: nat, m: nat,
                    c: Cursor)
    requires Settled(chain, matches, says, s, k) && Skipped(chain, matches, says, s, k, m) && Behind(chain, c, m)
    ensures Settled(chain, matches, says, s.(cursor := c), m)
  {
    forall u | Among(chain, m, u) ensures Among(chain, k, u) || !(Wanted(matches, says, u) || u in s.journal) {
    }
    forall u | Among(chain, k, u) ensures Among(chain, m, u) {
    }
  }

  // ---- Where the cursor stands ------------------------------------------------------------------------------------

  function Count(chain: seq<Record>, c: Cursor): (k: nat)
    ensures k <= |chain|
  {
    if chain == [] || !Passed(c, chain[0]) then 0 else 1 + Count(chain[1..], c)
  }

  lemma {:induction false} CountBehind(chain: seq<Record>, c: Cursor)
    requires History(chain)
    ensures Behind(chain, c, Count(chain, c))
  {
    if chain != [] && Passed(c, chain[0]) {
      var rest := chain[1..];
      CountBehind(rest, c);
      forall i | 0 <= i < |chain| ensures i < Count(chain, c) <==> Passed(c, chain[i]) {
        if i > 0 {
          assert rest[i - 1] == chain[i];
        }
      }
    }
  }

  lemma BehindOnce(chain: seq<Record>, c: Cursor, k: nat)
    requires History(chain) && Behind(chain, c, k)
    ensures Count(chain, c) == k
  {
    CountBehind(chain, c);
    var m := Count(chain, c);
    assert m < |chain| ==> (m < k <==> Passed(c, chain[m]));
    assert k < |chain| ==> (k < m <==> Passed(c, chain[k]));
  }

  // ---- The source ---------------------------------------------------------------------------------------------------

  /** A page of history; the token says where the next one starts. */
  datatype Page = Page(records: seq<Record>, token: Option<nat>)

  datatype Commit = Done | Undone | Uncertain

  /** Everything outside the source: pages by call, first slot and token; whether a transaction matches and whether its
      handler has an update, both fixed by the transaction; and which calls fail. */
  datatype Environment = Environment(
    pages: (nat, nat, Option<nat>) -> Option<Page>, matches: Signature -> bool, says: Signature -> bool,
    decodes: nat -> bool, handles: nat -> bool, commits: nat -> Commit)

  /** Pages are ascending stretches of the finalized history: the first starts at the requested slot, the others where
      the page before them ended. */
  ghost predicate ServesPages(env: Environment, chain: seq<Record>) {
    forall at, slot, token :: env.pages(at, slot, token).Some? ==> PageOf(chain, slot, token, env.pages(at, slot, token).value)
  }

  ghost predicate PageOf(chain: seq<Record>, slot: nat, token: Option<nat>, p: Page) {
    exists a: nat, b: nat :: Stretch(chain, slot, token, p, a, b)
  }

  ghost predicate Stretch(chain: seq<Record>, slot: nat, token: Option<nat>, p: Page, a: nat, b: nat) {
    && a <= b <= |chain| && p.records == chain[a..b] && (p.token.Some? ==> p.token.value == b)
    && (token.Some? ==> a == token.value)
    && (token.None? ==> forall i :: 0 <= i < a ==> chain[i].slot < slot)
  }

  /** No page follows this one. */
  predicate Last(p: Page) {
    |p.records| < PAGE || p.token.None?
  }

  /** The history stands still too: a page that none follows reaches its end. */
  ghost predicate ServesAll(env: Environment, chain: seq<Record>) {
    forall at, slot, token :: env.pages(at, slot, token).Some? ==> WholePage(chain, slot, token, env.pages(at, slot, token).value)
  }

  ghost predicate WholePage(chain: seq<Record>, slot: nat, token: Option<nat>, p: Page) {
    exists a: nat, b: nat :: Stretch(chain, slot, token, p, a, b) && (Last(p) ==> b == |chain|)
  }

  lemma ServesAllServes(env: Environment, chain: seq<Record>)
    requires ServesAll(env, chain)
    ensures ServesPages(env, chain)
  {
    forall at, slot, token | env.pages(at, slot, token).Some? ensures PageOf(chain, slot, token, env.pages(at, slot, token).value) {
      assert WholePage(chain, slot, token, env.pages(at, slot, token).value);
    }
  }

  // ---- Why a call may fail --------------------------------------------------------------------------------------

  /** What the source asks of the outside. */
  datatype Question = PageAsked(slot: nat, token: Option<nat>) | DecodeAsked | HandleAsked | CommitAsked

  /** The outside call `at`, which asked this, is an error; a commit errs even if it became durable. */
  ghost predicate Refused(env: Environment, at: nat, q: Question) {
    match q
    case PageAsked(slot, token) => env.pages(at, slot, token).None?
    case DecodeAsked => !env.decodes(at)
    case HandleAsked => !env.handles(at)
    case CommitAsked => env.commits(at) != Done
  }

  /** One of the questions asked since call `from` was refused. */
  ghost predicate Failed(env: Environment, asked: seq<Question>, from: nat) {
    exists at :: from <= at < |asked| && Refused(env, at, asked[at])
  }

  lemma Asks(env: Environment, asked: seq<Question>, from: nat, q: Question)
    requires from <= |asked|
    ensures Failed(env, asked + [q], from) <==> Failed(env, asked, from) || Refused(env, |asked|, q)
  {
    var more := asked + [q];
    if Failed(env, asked, from) {
      var at :| from <= at < |asked| && Refused(env, at, asked[at]);
      assert more[at] == asked[at];
    }
    if Refused(env, |asked|, q) {
      assert more[|asked|] == q;
    }
  }

  /** Since call `from` no page was asked for. */
  ghost predicate NoPages(asked: seq<Question>, from: nat) {
    forall at :: from <= at < |asked| ==> !asked[at].PageAsked?
  }

  lemma AsksSince(env: Environment, asked: seq<Question>, more: seq<Question>, from: nat)
    requires from <= |asked| && asked <= more
    ensures Failed(env, more, from) <==> Failed(env, asked, from) || Failed(env, more, |asked|)
    ensures NoPages(more, from) <==> NoPages(asked, from) && NoPages(more, |asked|)
  {
    assert forall at :: from <= at < |asked| ==> more[at] == asked[at];
  }

  /** A page answered with the token it was asked with. */
  ghost predicate Stalled(env: Environment, asked: seq<Question>, from: nat) {
    exists at, slot, token: nat ::
      && from <= at < |asked| && asked[at] == PageAsked(slot, Some(token)) && env.pages(at, slot, Some(token)).Some?
      && env.pages(at, slot, Some(token)).value.token == Some(token)
  }

  // ---- What a call does -----------------------------------------------------------------------------------------

  /** A notification is ignored when it is known, remembered as a hint when it does not match or the journal is full,
      and otherwise delivered and journaled. */
  predicate Delivers(env: Environment, s: Story, c: Cursor, sig: Signature) {
    sig != c.signature && sig !in s.journal && env.matches(sig) && |s.journal| < MAX_LIVE
  }

  function Heard(env: Environment, s: Story, c: Cursor, sig: Signature): Story {
    if Delivers(env, s, c, sig) then DeliverLive(s, env.says(sig), sig) else s
  }

  /** A notification that is delivered with an update although the cursor has passed its record. */
  ghost predicate Late(env: Environment, chain: seq<Record>, s: Story, sig: Signature) {
    Delivers(env, s, s.cursor, sig) && env.says(sig) && Among(chain, Count(chain, s.cursor), sig)
  }

  ghost predicate HintsOk(env: Environment, hints: map<Signature, Hint>, journal: seq<Signature>) {
    forall s :: s in hints ==> hints[s].matched == env.matches(s) && (hints[s].handled ==> s in journal)
  }

  /** The durable story and the running cursor agree with the history. */
  ghost predicate OnTrack(env: Environment, chain: seq<Record>, s: Story, c: Cursor) {
    && History(chain) && Settled(chain, env.matches, env.says, s, Count(chain, s.cursor))
    && Skipped(chain, env.matches, env.says, s, Count(chain, s.cursor), Count(chain, c))
  }

  datatype Outcome = Fine | Fails

  method LiveSignatureIndex(signatures: seq<Signature>, target: Signature) returns (index: int)
    ensures -1 <= index < |signatures|
    ensures index >= 0 ==> signatures[index] == target
    ensures index < 0 ==> target !in signatures
  {
    for i := 0 to |signatures|
      invariant target !in signatures[..i]
    {
      if signatures[i] == target {
        return i;
      }
    }
    return -1;
  }

  lemma LiveTrack(env: Environment, chain: seq<Record>, s: Story, sig: Signature)
    requires OnTrack(env, chain, s, s.cursor) && Delivers(env, s, s.cursor, sig) && !Late(env, chain, s, sig)
    ensures OnTrack(env, chain, DeliverLive(s, env.says(sig), sig), s.cursor)
  {
    LiveSettles(chain, env.matches, env.says, s, Count(chain, s.cursor), sig);
  }

  lemma ReplayTrack(env: Environment, chain: seq<Record>, s: Story, c: Cursor, m: nat, rest: seq<Signature>, updates: bool)
    requires OnTrack(env, chain, s, c) && m == Count(chain, c) < |chain| && Distinct(s.journal)
    requires Forgets(s.journal, chain[m].signature, rest)
    requires updates == (chain[m].signature !in s.journal && Wanted(env.matches, env.says, chain[m].signature))
    ensures var t := DeliverReplay(s, chain[m], rest, updates); OnTrack(env, chain, t, t.cursor) && Count(chain, t.cursor) == m + 1
  {
    var t := DeliverReplay(s, chain[m], rest, updates);
    ReplaySettles(chain, env.matches, env.says, s, Count(chain, s.cursor), m, rest, updates);
    BehindOnce(chain, t.cursor, m + 1);
  }

  lemma SkipTrack(env: Environment, chain: seq<Record>, s: Story, c: Cursor, m: nat)
    requires OnTrack(env, chain, s, c) && m == Count(chain, c) < |chain|
    requires chain[m].signature !in s.journal && !Wanted(env.matches, env.says, chain[m].signature)
    ensures var d := Cursor(chain[m].signature, chain[m].slot, chain[m].index); OnTrack(env, chain, s, d) && Count(chain, d) == m + 1
  {
    var d := Cursor(chain[m].signature, chain[m].slot, chain[m].index);
    ReplayCursor(chain, s, m, m, d);
    BehindOnce(chain, d, m + 1);
  }

  lemma SaveTrack(env: Environment, chain: seq<Record>, s: Story, c: Cursor)
    requires OnTrack(env, chain, s, c)
    ensures OnTrack(env, chain, s.(cursor := c), c)
  {
    CountBehind(chain, c);
    SkipSettles(chain, env.matches, env.says, s, Count(chain, s.cursor), Count(chain, c), c);
  }

  /** `record` is the next record of the history. */
  ghost predicate Next(env: Environment, chain: seq<Record>, s: Story, c: Cursor, record: Record) {
    OnTrack(env, chain, s, c) && Count(chain, c) < |chain| && record == chain[Count(chain, c)]
  }

  /** Replay adds updates and drops journal entries. */
  predicate Grows(before: Story, after: Story) {
    before.updates <= after.updates && |after.journal| <= |before.journal|
  }

  /** There is nothing to commit for this record. */
  ghost predicate Silent(env: Environment, s: Story, sig: Signature) {
    sig !in s.journal && !Wanted(env.matches, env.says, sig)
  }

  /** The record is committed: with its update, unless the live lane already committed that. */
  ghost predicate Replays(env: Environment, before: Story, after: Story, record: Record) {
    exists rest :: Forgets(before.journal, record.signature, rest)
      && after == DeliverReplay(before, record, rest, record.signature !in before.journal && Wanted(env.matches, env.says, record.signature))
  }

  /** The next record keeps the story on track, whether it is committed, passed silently or not reached. */
  lemma RecordTrack(env: Environment, chain: seq<Record>, before: Story, after: Story, c: Cursor, record: Record)
    requires Next(env, chain, before, c, record) && Distinct(before.journal)
    requires after == before || Replays(env, before, after, record)
    ensures OnTrack(env, chain, after, after.cursor)
    ensures after != before || Silent(env, before, record.signature) ==> OnTrack(env, chain, after, Cursor(record.signature, record.slot, record.index))
    ensures Grows(before, after)
  {
    RestartTrack(env, chain, before, c);
    if after != before {
      var sig := record.signature;
      var rest :| Forgets(before.journal, sig, rest)
        && after == DeliverReplay(before, record, rest, sig !in before.journal && Wanted(env.matches, env.says, sig));
      ReplayTrack(env, chain, before, c, Count(chain, c), rest, sig !in before.journal && Wanted(env.matches, env.says, sig));
    } else if Silent(env, before, record.signature) {
      SkipTrack(env, chain, before, c, Count(chain, c));
    }
  }

  /** What a restart finds is on track too. */
  lemma RestartTrack(env: Environment, chain: seq<Record>, s: Story, c: Cursor)
    requires OnTrack(env, chain, s, c)
    ensures OnTrack(env, chain, s, s.cursor)
  {
  }

  /** A new source is on track for the history beyond its first cursor. */
  lemma StartsOnTrack(env: Environment, chain: seq<Record>, start: Cursor)
    requires History(chain) && forall i :: 0 <= i < |chain| ==> !Passed(start, chain[i])
    ensures OnTrack(env, chain, Story(start, [], []), start)
  {
    BehindOnce(chain, start, 0);
  }

  lemma {:induction false} DistinctOnce(updates: seq<Signature>, u: Signature)
    requires Distinct(updates) && u in updates
    ensures multiset(updates)[u] == 1
  {
    var n := |updates| - 1;
    assert updates == updates[..n] + [updates[n]];
    if updates[n] == u {
      assert u !in updates[..n];
    } else {
      DistinctOnce(updates[..n], u);
    }
  }

  /** Behind the cursor every record with something to say has been said exactly once, and every other never. */
  lemma SaidOnce(env: Environment, chain: seq<Record>, s: Story, i: nat)
    requires OnTrack(env, chain, s, s.cursor) && i < |chain| && Passed(s.cursor, chain[i])
    ensures multiset(s.updates)[chain[i].signature] == if Wanted(env.matches, env.says, chain[i].signature) then 1 else 0
  {
    CountBehind(chain, s.cursor);
    if Wanted(env.matches, env.says, chain[i].signature) {
      DistinctOnce(s.updates, chain[i].signature);
    }
  }

  /** The page is a stretch of the history from `a` on, and the cursor has come at least to its record `i`. */
  ghost predicate OnPage(env: Environment, chain: seq<Record>, s: Story, c: Cursor, records: seq<Record>, a: nat, i: nat) {
    && OnTrack(env, chain, s, c) && a + |records| <= |chain| && records == chain[a..a + |records|]
    && i <= |records| && a + i <= Count(chain, c)
  }

  lemma NextOnPage(env: Environment, chain: seq<Record>, s: Story, c: Cursor, records: seq<Record>, a: nat, i: nat)
    requires OnPage(env, chain, s, c, records, a, i) && i < |records| && !Passed(c, records[i])
    ensures Next(env, chain, s, c, records[i]) && Count(chain, c) == a + i
  {
    CountBehind(chain, c);
    assert records[i] == chain[a + i];
  }

  lemma PassedOnPage(env: Environment, chain: seq<Record>, s: Story, c: Cursor, records: seq<Record>, a: nat, i: nat)
    requires OnPage(env, chain, s, c, records, a, i) && i < |records| && Passed(c, records[i])
    ensures OnPage(env, chain, s, c, records, a, i + 1)
  {
    CountBehind(chain, c);
    assert records[i] == chain[a + i];
  }

  lemma ReplayedOnPage(env: Environment, chain: seq<Record>, before: Story, after: Story, c: Cursor, d: Cursor,
                       records: seq<Record>, a: nat, i: nat)
    requires OnPage(env, chain, before, c, records, a, i) && i < |records| && OnTrack(env, chain, after, d)
    requires d == Cursor(records[i].signature, records[i].slot, records[i].index)
    ensures OnPage(env, chain, after, d, records, a, i + 1)
  {
    assert records[i] == chain[a + i];
    CountAt(chain, a + i);
  }

  lemma CountAt(chain: seq<Record>, j: nat)
    requires History(chain) && j < |chain|
    ensures Count(chain, Cursor(chain[j].signature, chain[j].slot, chain[j].index)) == j + 1
  {
    var c := Cursor(chain[j].signature, chain[j].slot, chain[j].index);
    assert Behind(chain, c, j + 1);
    BehindOnce(chain, c, j + 1);
  }

  /** The next page begins at or before the first record the cursor has not passed. */
  ghost predicate PageStart(chain: seq<Record>, slot: nat, token: Option<nat>, c: Cursor) {
    if token.Some? then token.value <= Count(chain, c) else slot <= c.slot
  }

  /** A catch-up in progress: the next page continues where the cursor stands or before. */
  ghost predicate Catching(env: Environment, chain: seq<Record>, slot: nat, token: Option<nat>, s: Story) {
    ServesPages(env, chain) && OnTrack(env, chain, s, s.cursor) && PageStart(chain, slot, token, s.cursor)
  }

  predicate Follows(answer: Option<Page>, token: nat) {
    answer.Some? && answer.value.token == Some(token)
  }

  datatype PageEnd = LastPage | NextPage(token: nat) | PageFails

  lemma StartOnPage(env: Environment, chain: seq<Record>, s: Story, c: Cursor, slot: nat, token: Option<nat>,
                    p: Page) returns (a: nat)
    requires OnTrack(env, chain, s, c) && PageStart(chain, slot, token, c) && PageOf(chain, slot, token, p)
    ensures OnPage(env, chain, s, c, p.records, a, 0) && Stretch(chain, slot, token, p, a, a + |p.records|)
    ensures WholePage(chain, slot, token, p) && Last(p) ==> a + |p.records| == |chain|
  {
    var x: nat, b: nat :| Stretch(chain, slot, token, p, x, b) && (WholePage(chain, slot, token, p) && Last(p) ==> b == |chain|);
    a := x;
    CountBehind(chain, c);
    if token.None? && x > Count(chain, c) {
      assert Passed(c, chain[Count(chain, c)]);
    }
  }

  /** A page that starts at `a` reaches less than the end only when a whole page of records lies between. */
  lemma PageAdvances(chain: seq<Record>, slot: nat, token: Option<nat>, p: Page, a: nat)
    requires Stretch(chain, slot, token, p, a, a + |p.records|) && !Last(p)
    ensures p.token.value == a + |p.records| >= PAGE + (if token.Some? then token.value else 0) && p.token.value <= |chain|
  {
  }

  predicate Within(q: Question, slot: nat, top: int) {
    q.PageAsked? ==> q.slot == slot && (q.token.Some? ==> q.token.value <= top)
  }

  /** From call `since` on no page of this history is refused, and no decoding, handler or commit fails. */
  ghost predicate Steady(env: Environment, since: nat, slot: nat, top: int) {
    forall at, q :: since <= at && Within(q, slot, top) ==> !Refused(env, at, q)
  }

  /** An endpoint that answers for a history that stands still. */
  ghost predicate Healthy(env: Environment, chain: seq<Record>, s: Story, since: nat) {
    ServesAll(env, chain) && OnTrack(env, chain, s, s.cursor) && Steady(env, since, s.cursor.slot, |chain|)
  }

  /** A page that is answered, and none of whose calls fails. */
  lemma PageAnswered(env: Environment, asked: seq<Question>, at: nat, since: nat, slot: nat, token: Option<nat>, top: int)
    requires Steady(env, since, slot, top) && since <= at < |asked|
    requires asked[at] == PageAsked(slot, token) && NoPages(asked, at + 1) && (token.Some? ==> token.value <= top)
    ensures !Failed(env, asked, at)
  {
    assert forall n :: at <= n < |asked| ==> Within(asked[n], slot, top);
  }

  // ---- Late notifications ---------------------------------------------------------------------------------------

  /** A story after each input: this input delivered a late notification. */
  ghost predicate Doubles(env: Environment, chain: seq<Record>, before: Story, after: Story, input: Input) {
    input.Message? && Late(env, chain, before, input.signature) && after != before
  }

  /** What happened: the story before the first input, and after each. */
  ghost predicate Traces(env: Environment, script: seq<Input>, trace: seq<Story>) {
    && |trace| == |script| + 1
    && forall i :: 0 <= i < |script| ==> Steps(env, trace[i], trace[i + 1], script[i])
  }

  ghost predicate Steps(env: Environment, before: Story, after: Story, input: Input) {
    match input
    case Message(sig) => after == before || after == Heard(env, before, before.cursor, sig)
    case Tick(_) => Grows(before, after)
    case Restart => after == before
  }

  /** No late notification was delivered while this happened. */
  ghost predicate NoneDoubled(env: Environment, chain: seq<Record>, script: seq<Input>, trace: seq<Story>) {
    forall i :: 0 <= i < |script| && i + 1 < |trace| ==> !Doubles(env, chain, trace[i], trace[i + 1], script[i])
  }

  lemma NoneDoubledNext(env: Environment, chain: seq<Record>, script: seq<Input>, trace: seq<Story>, after: Story)
    requires 0 < |trace| <= |script|
    ensures NoneDoubled(env, chain, script, trace + [after]) <==>
      NoneDoubled(env, chain, script, trace) && !Doubles(env, chain, trace[|trace| - 1], after, script[|trace| - 1])
  {
    var more := trace + [after];
    assert forall i :: 0 <= i < |trace| ==> more[i] == trace[i];
    if NoneDoubled(env, chain, script, more) {
      forall i | 0 <= i < |script| && i + 1 < |trace| ensures !Doubles(env, chain, trace[i], trace[i + 1], script[i]) {
        assert !Doubles(env, chain, more[i], more[i + 1], script[i]);
      }
      assert !Doubles(env, chain, more[|trace| - 1], more[|trace|], script[|trace| - 1]);
    }
  }

  lemma StaysDoubled(before: seq<Signature>, after: seq<Signature>)
    requires before <= after
    ensures Distinct(after) ==> Distinct(before)
  {
    if Distinct(after) {
      forall i, j | 0 <= i < j < |before| ensures before[i] != before[j] {
        assert before[i] == after[i] && before[j] == after[j];
      }
    }
  }

  /** One message keeps the story on track, unless it is late. */
  lemma MessageTrack(env: Environment, chain: seq<Record>, before: Story, after: Story, sig: Signature)
    requires OnTrack(env, chain, before, before.cursor) && (after == before || after == Heard(env, before, before.cursor, sig))
    ensures if Late(env, chain, before, sig) && after != before then !Distinct(after.updates) else OnTrack(env, chain, after, after.cursor)
  {
    if Late(env, chain, before, sig) {
      LateIsTwice(chain, env.matches, env.says, before, Count(chain, before.cursor), sig);
    } else if Delivers(env, before, before.cursor, sig) {
      LiveTrack(env, chain, before, sig);
    }
  }

  /** What is known after some inputs. */
  ghost predicate Tells(env: Environment, chain: seq<Record>, script: seq<Input>, trace: seq<Story>, s: Story) {
    if NoneDoubled(env, chain, script, trace) then OnTrack(env, chain, s, s.cursor) else !Distinct(s.updates)
  }

  lemma TellsOn(env: Environment, chain: seq<Record>, script: seq<Input>, trace: seq<Story>, before: Story, after: Story)
    requires 0 < |trace| <= |script| && trace[|trace| - 1] == before && Tells(env, chain, script, trace, before)
    requires Steps(env, before, after, script[|trace| - 1])
    requires script[|trace| - 1].Tick? && OnTrack(env, chain, before, before.cursor) ==> OnTrack(env, chain, after, after.cursor)
    ensures Tells(env, chain, script, trace + [after], after)
  {
    var input := script[|trace| - 1];
    NoneDoubledNext(env, chain, script, trace, after);
    StaysDoubled(before.updates, after.updates);
    if NoneDoubled(env, chain, script, trace) && input.Message? {
      MessageTrack(env, chain, before, after, input.signature);
    }
  }

  datatype Input = Message(signature: Signature) | Tick(budget: nat) | Restart

  class Source {
    const env: Environment

    /** The durable checkpoints, and the story behind them. */
    var savedCursor: Cursor
    var savedJournal: seq<Signature>
    ghost var story: Story
    /** The running source: its cursor may have passed records there was nothing to commit for. */
    var cursor: Cursor
    var journal: seq<Signature>
    var hints: map<Signature, Hint>
    /** How many outside calls were made, and what they asked. */
    var clock: nat
    ghost var asked: seq<Question>

    ghost predicate Valid()
      reads this
    {
      story.cursor == savedCursor && story.journal == savedJournal && JournalOk(story) && |asked| == clock
    }

    /** What the running process holds beside the durable state. */
    ghost predicate Running()
      reads this
    {
      journal == savedJournal && HintsOk(env, hints, journal)
    }

    /** loadCursor on first use. */
    constructor (env: Environment, start: Cursor)
      ensures Valid() && Running() && cursor == savedCursor && this.env == env && story == Story(start, [], []) && clock == 0
    {
      this.env := env;
      savedCursor, cursor, savedJournal, journal, hints, clock, asked := start, start, [], [], map[], 0, [];
      story := Story(start, [], []);
    }

    /** loadCursor and loadLiveJournal after a restart; the hints are gone. */
    method Load() returns (accepted: bool)
      requires Valid()
      modifies this`cursor, this`journal, this`hints
      ensures accepted && Running() && cursor == savedCursor
    {
      if |savedJournal| > MAX_LIVE {
        return false;
      }
      cursor, journal, hints := savedCursor, savedJournal, map[];
      return true;
    }

    /** One call to the outside. */
    method Ask(ghost q: Question) returns (at: nat)
      requires |asked| == clock
      modifies this`clock, this`asked
      ensures at == old(clock) && clock == at + 1 && |asked| == clock && asked == old(asked) + [q]
      ensures forall from: nat :: from <= at ==> (Failed(env, asked, from) <==> Failed(env, old(asked), from) || Refused(env, at, q))
    {
      at := clock;
      forall from: nat | from <= at ensures Failed(env, asked + [q], from) <==> Failed(env, asked, from) || Refused(env, at, q) {
        Asks(env, asked, from, q);
      }
      clock := clock + 1;
      asked := asked + [q];
    }

    method CommitStory(c: Cursor, j: seq<Signature>, ghost after: Story) returns (done: bool)
      requires Valid() && JournalOk(after) && after.cursor == c && after.journal == j
      modifies this`savedCursor, this`savedJournal, this`story, this`clock, this`asked
      ensures Valid() && asked == old(asked) + [CommitAsked]
      ensures (story == old(story) || story == after) && (done ==> story == after)
      ensures forall from: nat :: from <= old(clock) ==> (Failed(env, asked, from) <==> Failed(env, old(asked), from) || !done)
    {
      var at := Ask(CommitAsked);
      var ending := env.commits(at);
      if ending != Undone {
        savedCursor, savedJournal, story := c, j, after;
      }
      return ending == Done;
    }

    /** handleLive. */
    method HandleLive(sig: Signature) returns (r: Outcome)
      requires Valid() && Running() && cursor == savedCursor
      modifies this
      ensures Valid() && (r == Fine ==> Running() && cursor == savedCursor) && old(asked) <= asked
      ensures story == old(story) || story == Heard(env, old(story), old(story).cursor, sig)
      ensures r == Fine ==> story == Heard(env, old(story), old(story).cursor, sig)
      ensures r == Fine && sig != old(cursor).signature && sig !in old(journal) ==>
        hints == old(hints)[sig := Hint(env.matches(sig), Delivers(env, old(story), old(cursor), sig))]
      ensures NoPages(asked, old(clock)) && (r == Fails <==> sig == "" || Failed(env, asked, old(clock)))
      ensures story.cursor == old(story).cursor
      ensures r == Fine && sig != old(cursor).signature && sig !in old(journal) && env.matches(sig) && |old(journal)| < 256 ==>
        && story.journal == old(story).journal + [sig]
        && story.updates == if env.says(sig) then old(story).updates + [sig] else old(story).updates
      ensures !(sig != old(cursor).signature && sig !in old(journal) && env.matches(sig) && |old(journal)| < 256) ==> story == old(story)
    {
      if sig == "" {
        return Fails;
      }
      var index := LiveSignatureIndex(journal, sig);
      if sig == cursor.signature || index >= 0 {
        return Fine;
      }
      var at := Ask(DecodeAsked);
      if !env.decodes(at) {
        return Fails;
      }
      var matched := env.matches(sig);
      if !matched || |journal| >= MAX_LIVE {
        hints := hints[sig := Hint(matched, false)];
        return Fine;
      }
      at := Ask(HandleAsked);
      if !env.handles(at) {
        return Fails;
      }
      LiveJournals(story, env.says(sig), sig);
      var done := CommitStory(cursor, journal + [sig], DeliverLive(story, env.says(sig), sig));
      if !done {
        return Fails;
      }
      hints := hints[sig := Hint(true, true)];
      journal := journal + [sig];
      return Fine;
    }

    /** What replay owes a record: the update of its handler, unless the live lane or a hint settled that. */
    method ReplayUpdate(sig: Signature) returns (r: Outcome, updates: bool)
      requires Running() && |asked| == clock
      modifies this`clock, this`asked
      ensures r == Fine ==> updates == (sig !in journal && env.matches(sig) && env.says(sig))
      ensures |asked| == clock && old(asked) <= asked && NoPages(asked, old(clock))
      ensures forall from: nat :: from <= old(clock) ==> (Failed(env, asked, from) <==> Failed(env, old(asked), from) || r == Fails)
    {
      var index := LiveSignatureIndex(journal, sig);
      if index >= 0 {
        return Fine, false;
      }
      var matched: bool;
      if sig in hints {
        matched := hints[sig].matched && !hints[sig].handled;
      } else {
        var at := Ask(DecodeAsked);
        if !env.decodes(at) {
          return Fails, false;
        }
        matched := env.matches(sig);
      }
      if !matched {
        return Fine, false;
      }
      var at := Ask(HandleAsked);
      return if env.handles(at) then Fine else Fails, env.says(sig);
    }

    /** The record's update, its journal entry dropped and the cursor behind it, together. */
    method CommitRecord(record: Record, index: int, updates: bool) returns (r: Outcome)
      requires Valid() && Running() && record.signature !in hints
      requires -1 <= index < |journal| && (if index < 0 then record.signature !in journal else journal[index] == record.signature)
      requires updates == (index < 0 && Wanted(env.matches, env.says, record.signature))
      modifies this
      ensures Valid() && (r == Fine ==> Running() && cursor == savedCursor) && asked == old(asked) + [CommitAsked]
      ensures r == Fine ==> cursor == Cursor(record.signature, record.slot, record.index)
      ensures story == old(story) || Replays(env, old(story), story, record)
      ensures r == Fine ==> Replays(env, old(story), story, record)
      ensures forall from: nat :: from <= old(clock) ==> (Failed(env, asked, from) <==> Failed(env, old(asked), from) || r == Fails)
    {
      var next := Cursor(record.signature, record.slot, record.index);
      var rest := if index >= 0 then Drop(journal, index) else journal;
      DropForgets(journal, record.signature, index, rest);
      ForgetsEntry(journal, record.signature, rest);
      var done := CommitStory(next, rest, DeliverReplay(story, record, rest, updates));
      if !done {
        return Fails;
      }
      journal, cursor := rest, next;
      return Fine;
    }

    /** What is committed for one record. */
    method SettleRecord(record: Record) returns (r: Outcome, dirty: bool)
      requires Valid() && Running()
      modifies this
      ensures Valid() && (r == Fine ==> Running() && (!dirty ==> cursor == savedCursor)) && old(asked) <= asked
      ensures NoPages(asked, old(clock)) && (r == Fails <==> Failed(env, asked, old(clock)))
      ensures r == Fine ==> cursor == Cursor(record.signature, record.slot, record.index)
      ensures story == old(story) || Replays(env, old(story), story, record)
      ensures r == Fine ==>
        if dirty then story == old(story) && Silent(env, story, record.signature) else Replays(env, old(story), story, record)
    {
      var outcome, updates := ReplayUpdate(record.signature);
      hints := hints - {record.signature};
      if outcome == Fails {
        return Fails, false;
      }
      var index := LiveSignatureIndex(journal, record.signature);
      if !updates && index < 0 {
        cursor := Cursor(record.signature, record.slot, record.index);
        return Fine, true;
      }
      r := CommitRecord(record, index, updates);
      dirty := false;
    }

    /** One record of the replay loop. */
    method ReplayRecord(record: Record, ghost chain: seq<Record>) returns (r: Outcome, dirty: bool)
      requires Valid() && Running()
      modifies this
      ensures Valid() && (r == Fine ==> Running() && (!dirty ==> cursor == savedCursor)) && old(asked) <= asked
      ensures NoPages(asked, old(clock)) && (r == Fails <==> Failed(env, asked, old(clock)))
      ensures r == Fine ==> cursor == Cursor(record.signature, record.slot, record.index)
      ensures r == Fails ==> story == old(story) || story.cursor == Cursor(record.signature, record.slot, record.index)
      ensures Grows(old(story), story)
      ensures Next(env, chain, old(story), old(cursor), record) ==>
        OnTrack(env, chain, story, if r == Fine then cursor else story.cursor)
    {
      ghost var before, c := story, cursor;
      r, dirty := SettleRecord(record);
      if Next(env, chain, before, c, record) {
        RecordTrack(env, chain, before, story, c, record);
      }
    }

    /** The record loop over one page. */
    method ReplayPage(records: seq<Record>, ghost chain: seq<Record>, ghost a: nat) returns (r: Outcome, dirty: bool)
      requires Valid() && Running() && cursor == savedCursor
      modifies this
      ensures Valid() && (r == Fine ==> Running() && (!dirty ==> cursor == savedCursor)) && old(asked) <= asked
      ensures NoPages(asked, old(clock))
      ensures r == Fails <==> Failed(env, asked, old(clock))
      ensures Grows(old(story), story)
      ensures OnPage(env, chain, old(story), old(cursor), records, a, 0) ==>
        OnTrack(env, chain, story, if r == Fine then cursor else story.cursor)
      ensures OnPage(env, chain, old(story), old(cursor), records, a, 0) && r == Fine ==>
        OnPage(env, chain, story, cursor, records, a, |records|)
    {
      ghost var steady := OnPage(env, chain, story, cursor, records, a, 0);
      dirty := false;
      for i := 0 to |records|
        invariant Valid() && Running() && (!dirty ==> cursor == savedCursor) && old(asked) <= asked
        invariant !Failed(env, asked, old(clock)) && Grows(old(story), story)
        invariant NoPages(asked, old(clock))
        invariant steady ==> OnPage(env, chain, story, cursor, records, a, i)
      {
        ghost var before, c := story, cursor;
        if !Passed(cursor, records[i]) {
          if steady {
            NextOnPage(env, chain, story, cursor, records, a, i);
          }
          ghost var now := asked;
          var outcome, left := ReplayRecord(records[i], chain);
          AsksSince(env, now, asked, old(clock));
          if outcome == Fails {
            return Fails, dirty;
          }
          dirty := left;
          if steady {
            ReplayedOnPage(env, chain, before, story, c, cursor, records, a, i);
          }
        } else if steady {
          PassedOnPage(env, chain, story, cursor, records, a, i);
        }
      }
      return Fine, dirty;
    }

    /** The records of one page, then the cursor if records without anything to commit moved it. */
    method SettlePage(records: seq<Record>, ghost chain: seq<Record>, ghost a: nat) returns (r: Outcome)
      requires Valid() && Running() && cursor == savedCursor
      modifies this
      ensures Valid() && (r == Fine ==> Running() && cursor == savedCursor) && old(asked) <= asked
      ensures NoPages(asked, old(clock))
      ensures r == Fails <==> Failed(env, asked, old(clock))
      ensures Grows(old(story), story)
      ensures OnPage(env, chain, old(story), old(cursor), records, a, 0) ==>
        OnTrack(env, chain, story, story.cursor) && (r == Fine ==> a + |records| <= Count(chain, story.cursor))
    {
      var dirty;
      r, dirty := ReplayPage(records, chain, a);
      if r == Fine && dirty {
        if OnPage(env, chain, story, cursor, records, a, |records|) {
          SaveTrack(env, chain, story, cursor);
        }
        var done := CommitStory(cursor, journal, story.(cursor := cursor));
        r := if done then Fine else Fails;
      }
    }

    /** One page of catchUp. */
    method CatchUpPage(fromSlot: nat, token: Option<nat>, ghost chain: seq<Record>) returns (r: PageEnd)
      requires Valid() && Running() && cursor == savedCursor
      modifies this
      ensures Valid() && (!r.PageFails? ==> Running() && cursor == savedCursor) && old(asked) < asked
      ensures asked[old(clock)] == PageAsked(fromSlot, token) && NoPages(asked, old(clock) + 1)
      ensures r.PageFails? <==> Failed(env, asked, old(clock))
      ensures Grows(old(story), story)
      ensures r.NextPage? ==> Follows(env.pages(old(clock), fromSlot, token), r.token)
      ensures Catching(env, chain, fromSlot, token, old(story)) && ServesAll(env, chain) && r.LastPage? ==>
        Count(chain, story.cursor) == |chain|
      ensures Catching(env, chain, fromSlot, token, old(story)) && r.NextPage? ==>
        PAGE + (if token.Some? then token.value else 0) <= r.token <= |chain|
      ensures Catching(env, chain, fromSlot, token, old(story)) ==> OnTrack(env, chain, story, story.cursor)
      ensures Catching(env, chain, fromSlot, token, old(story)) && r.NextPage? ==> Catching(env, chain, fromSlot, Some(r.token), story)
    {
      var at := Ask(PageAsked(fromSlot, token));
      var answer := env.pages(at, fromSlot, token);
      if answer.None? {
        return PageFails;
      }
      ghost var steady := Catching(env, chain, fromSlot, token, story);
      ghost var a: nat := 0;
      if steady {
        a := StartOnPage(env, chain, story, cursor, fromSlot, token, answer.value);
        if !Last(answer.value) {
          PageAdvances(chain, fromSlot, token, answer.value, a);
        }
      }
      ghost var now := asked;
      var outcome := SettlePage(answer.value.records, chain, a);
      AsksSince(env, now, asked, old(clock));
      if outcome == Fails {
        return PageFails;
      }
      if |answer.value.records| < PAGE || answer.value.token.None? {
        assert ServesAll(env, chain) ==> WholePage(chain, fromSlot, token, env.pages(at, fromSlot, token).value);
        return LastPage;
      }
      return NextPage(answer.value.token.value);
    }

    /** catchUp: page through the finalized history from the cursor's slot on. `budget` pages later the context ends.
        With an endpoint that answers and time enough for the history's pages, all of it is settled. */
    method CatchUp(budget: nat, ghost chain: seq<Record>) returns (r: Outcome)
      requires Valid() && Running() && cursor == savedCursor
      modifies this
      ensures Valid() && (r == Fine ==> Running() && cursor == savedCursor) && old(asked) <= asked
      ensures r == Fails ==> Failed(env, asked, old(clock)) || Stalled(env, asked, old(clock)) || clock >= old(clock) + budget
      ensures r == Fine ==> !Failed(env, asked, old(clock))
      ensures Grows(old(story), story)
      ensures ServesPages(env, chain) && OnTrack(env, chain, old(story), old(story).cursor) ==> OnTrack(env, chain, story, story.cursor)
      ensures ServesAll(env, chain) && OnTrack(env, chain, old(story), old(story).cursor) && r == Fine ==>
        Count(chain, story.cursor) == |chain|
      ensures Healthy(env, chain, old(story), old(clock)) && |chain| < budget * PAGE ==> r == Fine
    {
      ghost var steady := ServesPages(env, chain) && OnTrack(env, chain, story, story.cursor);
      ghost var healthy := Healthy(env, chain, story, clock);
      var fromSlot := cursor.slot;
      var token: Option<nat> := None;
      for page := 0 to budget
        invariant Valid() && Running() && cursor == savedCursor && old(asked) <= asked && clock >= old(clock) + page
        invariant !Failed(env, asked, old(clock)) && Grows(old(story), story)
        invariant steady ==> Catching(env, chain, fromSlot, token, story)
        invariant healthy ==> page * PAGE <= (if token.Some? then token.value else 0) <= |chain|
      {
        ghost var now := asked;
        var end := CatchUpPage(fromSlot, token, chain);
        AsksSince(env, now, asked, old(clock));
        if healthy {
          PageAnswered(env, asked, |now|, old(clock), fromSlot, token, |chain|);
        }
        match end
        case LastPage => return Fine;
        case PageFails => return Fails;
        case NextPage(next) =>
          if token == Some(next) {
            return Fails;
          }
          token := Some(next);
      }
      return Fails;
    }

    /** Any number of live messages, catch-ups and restarts. An update is committed twice if and only if a notification
        was delivered after the cursor had passed its record; otherwise every wanted record behind the cursor has its
        update committed exactly once, from either lane. */
    method Follow(script: seq<Input>, ghost chain: seq<Record>) returns (ghost trace: seq<Story>)
      requires Valid() && Running() && cursor == savedCursor && ServesPages(env, chain) && OnTrack(env, chain, story, story.cursor)
      modifies this
      ensures Valid() && Running() && cursor == savedCursor
      ensures Traces(env, script, trace) && trace[0] == old(story) && trace[|script|] == story
      ensures Distinct(story.updates) <==> NoneDoubled(env, chain, script, trace)
      ensures NoneDoubled(env, chain, script, trace) ==> OnTrack(env, chain, story, story.cursor)
    {
      hide Failed, NoPages, JournalOk, HintsOk;
      trace := [story];
      for i := 0 to |script|
        invariant Valid() && Running() && cursor == savedCursor
        invariant |trace| == i + 1 && trace[0] == old(story) && trace[i] == story
        invariant forall j :: 0 <= j < i ==> Steps(env, trace[j], trace[j + 1], script[j])
        invariant Tells(env, chain, script, trace, story)
      {
        ghost var before := story;
        var r := Fails;
        if script[i].Message? {
          r := HandleLive(script[i].signature);
        } else if script[i].Tick? {
          r := CatchUp(script[i].budget, chain);
        }
        if r == Fails {
          var accepted := Load();
          assert accepted;
        }
        TellsOn(env, chain, script, trace, before, story);
        trace := trace + [story];
      }
    }
  }

  // ---- A late notification ------------------------------------------------------------------------------------------

  /** An endpoint with these records on one page. */
  function Answering(records: seq<Record>): Environment {
    Environment((at, slot, token: Option<nat>) => OnePage(records, token), s => true, s => true, at => true, at => true, at => Done)
  }

  function OnePage(records: seq<Record>, token: Option<nat>): Option<Page> {
    if token.None? then Some(Page(records, None))
    else if token.value <= |records| then Some(Page(records[token.value..], None))
    else None
  }

  lemma AnsweringServes(records: seq<Record>)
    requires |records| < PAGE
    ensures ServesAll(Answering(records), records) && ServesPages(Answering(records), records)
  {
    forall slot: nat, token: Option<nat> {:trigger WholePage(records, slot, token, OnePage(records, token).value)} | OnePage(records, token).Some?
      ensures WholePage(records, slot, token, OnePage(records, token).value)
    {
      assert Stretch(records, slot, token, OnePage(records, token).value, if token.Some? then token.value else 0, |records|);
    }
    ServesAllServes(Answering(records), records);
  }

  lemma AnsweringIsHealthy(first: Record, second: Record, start: Cursor)
    requires History([first, second]) && first.slot > 0 && start == Cursor("", 0, 0)
    ensures Healthy(Answering([first, second]), [first, second], Story(start, [], []), 0)
  {
    var chain := [first, second];
    assert chain[0] == first && chain[1] == second;
    AnsweringServes(chain);
    StartsOnTrack(Answering(chain), chain, start);
  }

  lemma SettledTwo(env: Environment, first: Record, second: Record, s: Story, sig: Signature)
    requires env == Answering([first, second]) && History([first, second]) && (sig == first.signature || sig == second.signature)
    requires OnTrack(env, [first, second], s, s.cursor) && Count([first, second], s.cursor) == 2
    ensures multiset(s.updates)[sig] == 1 && sig !in s.journal
  {
    var chain := [first, second];
    CountBehind(chain, s.cursor);
    var i := if sig == first.signature then 0 else 1;
    assert Passed(s.cursor, chain[i]) && Among(chain, 2, sig);
    SaidOnce(env, chain, s, i);
  }

  /** From a new source to a second update: catch up with two records, then hear of one of them again. */
  method LateNotification(first: Record, second: Record) returns (source: Source, sig: Signature)
    requires History([first, second]) && first.signature != "" && second.signature != "" && first.slot > 0
    ensures fresh(source) && source.Valid() && multiset(source.story.updates)[sig] == 2
  {
    var start := Cursor("", 0, 0);
    ghost var chain := [first, second];
    AnsweringIsHealthy(first, second, start);
    source := new Source(Answering([first, second]), start);
    var r := source.CatchUp(1, chain);
    assert [first, second][0].signature != [first, second][1].signature;
    sig := if source.cursor.signature == first.signature then second.signature else first.signature;
    SettledTwo(source.env, first, second, source.story, sig);
    var heard := source.HandleLive(sig);
  }
}
