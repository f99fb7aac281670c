/** catalog/quicknode/evm/blocks.go: a follower that applies canonical blocks in order and takes orphaned ones back. */
module Blocks {
  type Hash = string

  datatype Option<+T> = None | Some(value: T)

  datatype Ref = Ref(number: nat, hash: Hash, parent: Hash)

  datatype Block = Block(ref: Ref, body: string)

  /** The checkpoint committed with every update. */
  datatype Progress = Progress(next: nat, parent: Hash, recent: seq<Ref>)

  // ---- The block RPC --------------------------------------------------------------------------------------

  datatype Fetch = Found(block: Block) | Unavailable | Broken

  datatype Handling = Handled | NoReceipt | HandlerFails

  /** A commit can fail with nothing durable, or fail although it is durable. */
  datatype Commit = Done | Undone | Uncertain

  /** Everything outside the follower, call by call: what the endpoint answers, what the handler and the
      session's commit report. */
  datatype Environment = Environment(
    answers: (nat, nat) -> Fetch, handlings: nat -> Handling, commits: nat -> Commit)

  /** What a successful response guarantees: the requested number and well-formed hashes. */
  function Fetched(env: Environment, at: nat, number: nat): Fetch {
    var f := env.answers(at, number);
    if f.Found? && (f.block.ref.number != number || f.block.ref.hash == "" || f.block.ref.parent == "") then Broken else f
  }

  datatype Announcement = Announcement(number: nat, hash: Hash, parent: Hash)

  // ---- Chains ----------------------------------------------------------------------------------------------

  /** `b` continues a chain that started with block `start`, whose parent is `parent`, and has come to `net`. */
  ghost predicate Extends(start: nat, parent: Hash, net: seq<Block>, b: Block) {
    && b.ref.number == start + |net| && b.ref.hash != "" && b.ref.parent != ""
    && (net == [] ==> start > 0 ==> b.ref.parent == parent)
    && (net != [] ==> b.ref.parent == net[|net| - 1].ref.hash)
  }

  /** Every block continues those before it. */
  ghost predicate Linked(start: nat, parent: Hash, net: seq<Block>) {
    net == [] || (Linked(start, parent, net[..|net| - 1]) && Extends(start, parent, net[..|net| - 1], net[|net| - 1]))
  }

  lemma {:induction false} LinkedAt(start: nat, parent: Hash, net: seq<Block>, i: nat)
    requires Linked(start, parent, net) && i < |net|
    ensures Extends(start, parent, net[..i], net[i])
  {
    var n := |net| - 1;
    if i < n {
      LinkedAt(start, parent, net[..n], i);
      assert net[..n][..i] == net[..i];
    }
  }

  datatype Delivery = Applied(block: Block) | Removed(ref: Ref)

  /** The blocks applied and not removed, if every removal took back the newest of them. */
  function Net(log: seq<Delivery>): Option<seq<Block>> {
    if log == [] then Some([]) else
    match Net(log[..|log| - 1])
    case None => None
    case Some(net) =>
      match log[|log| - 1]
      case Applied(b) => Some(net + [b])
      case Removed(r) => if net != [] && net[|net| - 1].ref == r then Some(net[..|net| - 1]) else None
  }

  // ---- The monitor state -------------------------------------------------------------------------------------

  function Fold<S>(apply: (S, Block) -> S, initial: S, net: seq<Block>): S {
    if net == [] then initial else apply(Fold(apply, initial, net[..|net| - 1]), net[|net| - 1])
  }

  /** The state after the committed deliveries: every delivery commits its update together with the checkpoint. */
  function StateAfter<S>(apply: (S, Block) -> S, undo: (S, Ref) -> S, initial: S, log: seq<Delivery>): S {
    if log == [] then initial else
    var before := StateAfter(apply, undo, initial, log[..|log| - 1]);
    match log[|log| - 1]
    case Applied(b) => apply(before, b)
    case Removed(r) => undo(before, r)
  }

  /** Taking a block back restores the state it was applied to. */
  ghost predicate Inverts<S(!new)>(apply: (S, Block) -> S, undo: (S, Ref) -> S) {
    forall s, b :: undo(apply(s, b), b.ref) == s
  }

  /** If removal inverts application, the monitor state is the fold over the net chain. */
  lemma {:induction false} StateIsFold<S(!new)>(apply: (S, Block) -> S, undo: (S, Ref) -> S, initial: S, log: seq<Delivery>)
    requires Inverts(apply, undo) && Net(log).Some?
    ensures StateAfter(apply, undo, initial, log) == Fold(apply, initial, Net(log).value)
  {
    if log != [] {
      var before := log[..|log| - 1];
      StateIsFold(apply, undo, initial, before);
      var net := Net(before).value;
      if log[|log| - 1].Applied? {
        assert (net + [log[|log| - 1].block])[..|net|] == net;
      }
    }
  }

  // ---- validateBlockProgress ---------------------------------------------------------------------------------

  predicate ContiguousRefs(refs: seq<Ref>) {
    && (forall i :: 0 <= i < |refs| ==> refs[i].hash != "" && refs[i].parent != "")
    && (forall i, j :: 0 <= i < |refs| && 0 <= j < |refs| && j == i + 1 ==> refs[j].number == refs[i].number + 1 && refs[j].parent == refs[i].hash)
  }

  predicate ValidProgress(p: Progress, maxRecent: nat) {
    && |p.recent| <= maxRecent
    && ContiguousRefs(p.recent)
    && (if p.recent != [] then p.next == p.recent[|p.recent| - 1].number + 1 && p.parent == p.recent[|p.recent| - 1].hash
        else p.next > 0 ==> p.parent != "")
  }

  /** validate: the configurations a follower accepts. */
  predicate ValidConfig(confirmations: nat, maxRecent: nat) {
    maxRecent >= 2 && confirmations <= maxRecent - 2
  }

  function Refs(net: seq<Block>): seq<Ref> {
    seq(|net|, i requires 0 <= i < |net| => net[i].ref)
  }

  /** The checkpoint stands at the end of the net chain and its journal is a tail of it. */
  ghost predicate Stands(start: nat, parent: Hash, net: seq<Block>, p: Progress) {
    && p.next == start + |net|
    && (net != [] ==> p.parent == net[|net| - 1].ref.hash)
    && (net == [] && start > 0 ==> p.parent == parent)
    && |p.recent| <= |net| && p.recent == Refs(net[|net| - |p.recent|..])
  }

  /** What is durable: the checkpoint, the deliveries committed so far, and the blocks they leave applied. */
  datatype Story = Story(saved: Progress, log: seq<Delivery>, net: seq<Block>)

  /** Everything committed so far hangs together. */
  ghost predicate Consistent(start: nat, parent: Hash, maxRecent: nat, s: Story) {
    && (start > 0 ==> parent != "")
    && Net(s.log) == Some(s.net)
    && Linked(start, parent, s.net)
    && Stands(start, parent, s.net, s.saved)
    && |s.saved.recent| <= maxRecent
  }

  lemma RefsContiguous(start: nat, parent: Hash, net: seq<Block>, k: nat)
    requires Linked(start, parent, net) && k <= |net|
    ensures ContiguousRefs(Refs(net[k..]))
  {
    var refs := Refs(net[k..]);
    assert forall i :: 0 <= i < |refs| ==> refs[i] == net[k + i].ref;
    forall i | 0 <= i < |refs| ensures refs[i].hash != "" && refs[i].parent != "" {
      LinkedAt(start, parent, net, k + i);
    }
    forall i, j | 0 <= i < |refs| && 0 <= j < |refs| && j == i + 1
      ensures refs[j].number == refs[i].number + 1 && refs[j].parent == refs[i].hash
    {
      NextLinked(start, parent, net, k + i);
    }
  }

  lemma NextLinked(start: nat, parent: Hash, net: seq<Block>, i: nat)
    requires Linked(start, parent, net) && i + 1 < |net|
    ensures net[i + 1].ref.number == net[i].ref.number + 1 && net[i + 1].ref.parent == net[i].ref.hash
  {
    LinkedAt(start, parent, net, i);
    LinkedAt(start, parent, net, i + 1);
    assert net[..i + 1][i] == net[i];
  }

  /** Every checkpoint the follower commits is one it accepts when it loads it again. */
  lemma SavedIsValid(start: nat, parent: Hash, maxRecent: nat, s: Story)
    requires Consistent(start, parent, maxRecent, s)
    ensures ValidProgress(s.saved, maxRecent)
  {
    RefsContiguous(start, parent, s.net, |s.net| - |s.saved.recent|);
    if s.saved.recent != [] {
      assert s.saved.recent[|s.saved.recent| - 1] == s.net[|s.net| - 1].ref;
    }
  }

  // ---- Appending a block ------------------------------------------------------------------------------------

  ghost predicate Consecutive(recent: seq<Ref>) {
    forall i, j :: 0 <= i < j < |recent| && j == i + 1 ==> recent[j].number == recent[i].number + 1
  }

  /** trim: drop what lies deeper than the confirmations below the head. */
  method Trim(recent: seq<Ref>, head: nat, confirmations: nat) returns (kept: seq<Ref>)
    requires Consecutive(recent)
    ensures Trimmed(recent, kept)
    ensures recent != [] && recent[|recent| - 1].number <= head ==> |kept| <= confirmations
    ensures forall r :: r in recent && r.number + confirmations > head ==> r in kept
    ensures head >= confirmations ==> forall r :: r in kept ==> r.number + confirmations > head
    ensures |kept| <= |recent|
    ensures |kept| < |recent| ==> recent[|recent| - |kept| - 1].number + confirmations <= head
  {
    if head < confirmations {
      assert recent == recent[0..];
      Bounded(recent, 0, head);
      return recent;
    }
    var finalized := head - confirmations;
    var cut := 0;
    while cut < |recent| && recent[cut].number <= finalized
      invariant cut <= |recent|
      invariant forall i :: 0 <= i < cut ==> recent[i].number <= finalized
    {
      cut := cut + 1;
    }
    kept := recent[cut..];
    if kept != [] && recent[|recent| - 1].number <= head {
      Ascend(recent, cut, |recent| - 1);
    }
    forall i | cut <= i < |recent| ensures recent[i].number + confirmations > head {
      Ascend(recent, cut, i);
    }
  }

  lemma {:induction false} Ascend(recent: seq<Ref>, i: nat, j: nat)
    requires Consecutive(recent)
    requires i <= j < |recent|
    ensures recent[j].number == recent[i].number + (j - i)
    decreases j - i
  {
    if i < j {
      Ascend(recent, i, j - 1);
    }
  }

  lemma Bounded(recent: seq<Ref>, cut: nat, head: nat)
    requires Consecutive(recent)
    requires cut <= |recent|
    ensures recent != [] && recent[|recent| - 1].number <= head ==> |recent| <= head + 1
  {
    if recent != [] {
      Ascend(recent, 0, |recent| - 1);
    }
  }

  /** Progress past one more block, with what is left of the journal. */
  function Pushed(r: Ref, kept: seq<Ref>): Progress {
    Progress(r.number + 1, r.hash, kept)
  }

  /** Progress back before the newest journaled block. */
  function Popped(p: Progress): Progress
    requires p.recent != []
  {
    var last := p.recent[|p.recent| - 1];
    Progress(last.number, last.parent, p.recent[..|p.recent| - 1])
  }

  /** The story with one more block applied. */
  function Applying(s: Story, b: Block, kept: seq<Ref>): Story {
    Story(Pushed(b.ref, kept), s.log + [Applied(b)], s.net + [b])
  }

  /** The story with its newest journaled block removed. */
  function Removing(s: Story): Story
    requires s.saved.recent != [] && s.net != []
  {
    Story(Popped(s.saved), s.log + [Removed(s.saved.recent[|s.saved.recent| - 1])], s.net[..|s.net| - 1])
  }

  /** The journal with one more entry, trimmed from the front. */
  ghost predicate Trimmed(recent: seq<Ref>, kept: seq<Ref>) {
    exists cut: nat :: cut <= |recent| && kept == recent[cut..]
  }

  /** The newest block without a journal entry, and so every one of them, lies at least `confirmations` below `top`. */
  ghost predicate Journaled(confirmations: nat, top: nat, s: Story) {
    |s.saved.recent| < |s.net| ==> s.net[|s.net| - |s.saved.recent| - 1].ref.number + confirmations <= top
  }

  lemma JournaledHigher(confirmations: nat, low: nat, top: nat, s: Story)
    requires Journaled(confirmations, low, s) && low <= top
    ensures Journaled(confirmations, top, s)
  {
  }

  lemma AppendJournaled(start: nat, parent: Hash, maxRecent: nat, confirmations: nat, target: nat, top: nat, s: Story,
                        b: Block, kept: seq<Ref>)
    requires Consistent(start, parent, maxRecent, s) && Journaled(confirmations, top, s) && target <= top
    requires var journal := s.saved.recent + [b.ref];
      && |kept| <= |journal|
      && (|kept| < |journal| ==> journal[|journal| - |kept| - 1].number + confirmations <= target)
    ensures Journaled(confirmations, top, Applying(s, b, kept))
  {
    hide Linked, Net;
    var recent, cut := s.saved.recent, |s.saved.recent| + 1 - |kept|;
    if 0 < cut <= |recent| {
      assert recent[cut - 1] == s.net[|s.net| - |recent| + cut - 1].ref;
    }
  }

  lemma RemoveJournaled(confirmations: nat, top: nat, s: Story)
    requires Journaled(confirmations, top, s) && s.saved.recent != [] && s.net != []
    ensures Journaled(confirmations, top, Removing(s))
  {
  }

  /** Of what was journaled at `was` or applied since, everything less than `confirmations` below the target still is. */
  ghost predicate Retains(confirmations: nat, target: nat, was: Story, now: Story) {
    && (forall r :: r in was.saved.recent && r.number + confirmations > target ==> r in now.saved.recent)
    && (forall i :: |was.net| <= i < |now.net| && now.net[i].ref.number + confirmations > target ==> now.net[i].ref in now.saved.recent)
  }

  lemma RetainsAll(confirmations: nat, target: nat, s: Story)
    ensures Retains(confirmations, target, s, s)
  {
  }

  lemma AppendRetains(confirmations: nat, target: nat, was: Story, now: Story, b: Block, kept: seq<Ref>)
    requires Retains(confirmations, target, was, now)
    requires forall r :: r in now.saved.recent + [b.ref] && r.number + confirmations > target ==> r in kept
    ensures Retains(confirmations, target, was, Applying(now, b, kept))
  {
    var recent := now.saved.recent + [b.ref];
    assert forall r :: r in now.saved.recent ==> r in recent;
    assert recent[|recent| - 1] == b.ref;
  }

  lemma AppendKeeps(start: nat, parent: Hash, maxRecent: nat, s: Story, b: Block, kept: seq<Ref>)
    requires Consistent(start, parent, maxRecent, s) && Trimmed(s.saved.recent + [b.ref], kept) && |kept| <= maxRecent
    requires b.ref.number == s.saved.next && b.ref.hash != "" && b.ref.parent != ""
    requires s.saved.next > 0 ==> b.ref.parent == s.saved.parent
    ensures Consistent(start, parent, maxRecent, Applying(s, b, kept))
  {
    hide Linked, Net, Stands, Extends;
    var cut: nat :| cut <= |s.saved.recent| + 1 && kept == (s.saved.recent + [b.ref])[cut..];
    AppendNet(s.log, s.net, b);
    AppendExtends(start, parent, s.net, s.saved, b);
    AppendLinked(start, parent, s.net, b);
    AppendStands(start, parent, s.net, s.saved, b, Pushed(b.ref, kept), cut);
  }

  lemma AppendNet(log: seq<Delivery>, net: seq<Block>, b: Block)
    requires Net(log) == Some(net)
    ensures Net(log + [Applied(b)]) == Some(net + [b])
  {
    assert (log + [Applied(b)])[..|log|] == log;
  }

  lemma AppendExtends(start: nat, parent: Hash, net: seq<Block>, p: Progress, b: Block)
    requires Stands(start, parent, net, p) && b.ref.number == p.next && b.ref.hash != "" && b.ref.parent != ""
    requires p.next > 0 ==> b.ref.parent == p.parent
    ensures Extends(start, parent, net, b)
  {
  }

  lemma AppendLinked(start: nat, parent: Hash, net: seq<Block>, b: Block)
    requires Linked(start, parent, net) && Extends(start, parent, net, b)
    ensures Linked(start, parent, net + [b])
  {
    assert (net + [b])[..|net|] == net;
  }

  lemma AppendStands(start: nat, parent: Hash, net: seq<Block>, saved: Progress, b: Block, next: Progress, cut: nat)
    requires Stands(start, parent, net, saved) && b.ref.number == saved.next
    requires cut <= |saved.recent| + 1 && next == Progress(saved.next + 1, b.ref.hash, (saved.recent + [b.ref])[cut..])
    ensures Stands(start, parent, net + [b], next)
  {
    TailAppend(net, b, |net| - |saved.recent|, cut);
  }

  lemma TailAppend(net: seq<Block>, b: Block, k: nat, cut: nat)
    requires k <= |net| && cut <= |net| - k + 1
    ensures (Refs(net[k..]) + [b.ref])[cut..] == Refs((net + [b])[k + cut..])
  {
  }

  lemma NewestJournaled(start: nat, parent: Hash, net: seq<Block>, p: Progress)
    requires Stands(start, parent, net, p) && p.recent != []
    ensures net != [] && p.recent[|p.recent| - 1] == net[|net| - 1].ref
  {
  }

  lemma RemoveStands(start: nat, parent: Hash, net: seq<Block>, p: Progress)
    requires Linked(start, parent, net) && Stands(start, parent, net, p) && p.recent != [] && net != []
    ensures Stands(start, parent, net[..|net| - 1], Popped(p))
  {
    var n := |net| - 1;
    assert p.recent[|p.recent| - 1] == net[n].ref;
    assert p.recent[..|p.recent| - 1] == Refs(net[..n][n - (|p.recent| - 1)..]);
  }

  lemma RemoveNet(log: seq<Delivery>, net: seq<Block>)
    requires Net(log) == Some(net) && net != []
    ensures Net(log + [Removed(net[|net| - 1].ref)]) == Some(net[..|net| - 1])
  {
    assert (log + [Removed(net[|net| - 1].ref)])[..|log|] == log;
  }

  lemma RemoveKeeps(start: nat, parent: Hash, maxRecent: nat, s: Story)
    requires Consistent(start, parent, maxRecent, s) && s.saved.recent != []
    ensures s.net != [] && s.saved.recent[|s.saved.recent| - 1] == s.net[|s.net| - 1].ref
    ensures Consistent(start, parent, maxRecent, Removing(s))
  {
    NewestJournaled(start, parent, s.net, s.saved);
    RemoveNet(s.log, s.net);
    RemoveStands(start, parent, s.net, s.saved);
  }

  // ---- A chain that stands still -----------------------------------------------------------------------------

  /** From call `from` on the endpoint serves this chain and nothing fails. */
  ghost predicate Serves(env: Environment, from: nat, chain: seq<Block>) {
    && (forall at, n :: at >= from && 0 <= n < |chain| ==> env.answers(at, n) == Found(chain[n]))
    && (forall at :: at >= from ==> env.handlings(at) == Handled)
    && (forall at :: at >= from ==> env.commits(at) == Done)
  }

  /** Blocks are numbered from 0 and linked by their hashes. */
  ghost predicate Chained(chain: seq<Block>) {
    && (forall n :: 0 <= n < |chain| ==> chain[n].ref.number == n && chain[n].ref.hash != "" && chain[n].ref.parent != "")
    && (forall m, n :: 0 <= m < n < |chain| && n == m + 1 ==> chain[n].ref.parent == chain[m].ref.hash)
  }

  /** Equal hashes mean equal blocks. */
  ghost predicate CollisionFree(net: seq<Block>, chain: seq<Block>) {
    forall i, n :: 0 <= i < |net| && 0 <= n < |chain| && net[i].ref.hash == chain[n].ref.hash ==> net[i] == chain[n]
  }

  /** The net chain is part of the canonical chain. */
  ghost predicate Canonical(start: nat, net: seq<Block>, chain: seq<Block>) {
    start + |net| <= |chain| && forall i :: 0 <= i < |net| ==> net[i] == chain[start + i]
  }

  /** The block before `start + k` is the canonical one. */
  ghost predicate EndsOn(start: nat, parent: Hash, net: seq<Block>, chain: seq<Block>, k: nat)
    requires k <= |net|
  {
    if k > 0 then start + k <= |chain| && net[k - 1].ref.hash == chain[start + k - 1].ref.hash
    else start > 0 ==> start <= |chain| && parent == chain[start - 1].ref.hash
  }

  lemma OneDown(start: nat, parent: Hash, net: seq<Block>, chain: seq<Block>, k: nat)
    requires Linked(start, parent, net) && Chained(chain) && CollisionFree(net, chain)
    requires 1 < k <= |net| && start + k <= |chain| && net[k - 1] == chain[start + k - 1]
    ensures net[k - 2] == chain[start + k - 2]
  {
    LinkedAt(start, parent, net, k - 1);
    var n := start + k - 1;
    assert chain[n].ref.parent == chain[n - 1].ref.hash;
    assert net[k - 2].ref.hash == chain[n - 1].ref.hash;
  }

  lemma {:induction false} AllDown(start: nat, parent: Hash, net: seq<Block>, chain: seq<Block>, k: nat, i: nat)
    requires Linked(start, parent, net) && Chained(chain) && CollisionFree(net, chain)
    requires i < k <= |net| && start + k <= |chain| && net[k - 1] == chain[start + k - 1]
    ensures net[i] == chain[start + i]
    decreases k
  {
    if i < k - 1 {
      OneDown(start, parent, net, chain, k);
      AllDown(start, parent, net, chain, k - 1, i);
    }
  }

  /** A net chain whose last block is canonical is canonical throughout. */
  lemma EndsOnCanonical(start: nat, parent: Hash, net: seq<Block>, chain: seq<Block>, k: nat)
    requires Linked(start, parent, net) && Chained(chain) && CollisionFree(net, chain)
    requires k <= |net| && start + k <= |chain| && EndsOn(start, parent, net, chain, k)
    ensures Canonical(start, net[..k], chain)
  {
    forall i | 0 <= i < k ensures net[i] == chain[start + i] {
      AllDown(start, parent, net, chain, k, i);
    }
  }

  lemma JournalEnd(start: nat, parent: Hash, net: seq<Block>, p: Progress)
    requires Linked(start, parent, net) && Stands(start, parent, net, p) && p.recent != []
    ensures var last := p.recent[|p.recent| - 1]; last.number + 1 == p.next && last.hash == p.parent
  {
    assert p.recent[|p.recent| - 1] == net[|net| - 1].ref;
    LinkedAt(start, parent, net, |net| - 1);
  }

  /** Every block of `net` from position `n` on is orphaned. */
  ghost predicate Orphaned(start: nat, net: seq<Block>, n: nat, chain: seq<Block>) {
    && start + |net| <= |chain|
    && forall i :: n <= i < |net| ==> net[i].ref.hash != chain[start + i].ref.hash
  }

  // ---- What the endpoint said during a call ----------------------------------------------------------------------

  /** Between two calls the endpoint named another hash for the block of this number. */
  ghost predicate Denied(env: Environment, from: nat, to: nat, number: nat, hash: Hash) {
    exists at :: from <= at < to && Fetched(env, at, number).Found? && Fetched(env, at, number).block.ref.hash != hash
  }

  ghost predicate Confirmed(env: Environment, from: nat, to: nat, number: nat, hash: Hash) {
    exists at :: from <= at < to && Fetched(env, at, number).Found? && Fetched(env, at, number).block.ref.hash == hash
  }

  /** Some fetch below `bound`, some handler call or some commit failed. */
  ghost predicate Disturbed(env: Environment, from: nat, to: nat, bound: nat) {
    || (exists at, n: nat :: from <= at < to && n < bound && !Fetched(env, at, n).Found?)
    || (exists at :: from <= at < to && env.handlings(at) != Handled)
    || (exists at :: from <= at < to && env.commits(at) != Done)
  }

  /** `net[n..]` was taken back block by block, each denied when it was the newest. */
  ghost predicate TakenBack(env: Environment, from: nat, to: nat, net: seq<Block>, n: nat) {
    n <= |net| && forall i :: n <= i < |net| ==> Denied(env, from, to, net[i].ref.number, net[i].ref.hash)
  }

  lemma Wider(env: Environment, from: nat, a: nat, b: nat, to: nat, low: nat, high: nat)
    requires from <= a <= b <= to && low <= high && Disturbed(env, a, b, low)
    ensures Disturbed(env, from, to, high)
  {
    if at, n: nat :| a <= at < b && n < low && !Fetched(env, at, n).Found? {
      assert n < high && !Fetched(env, at, n).Found?;
    }
  }

  lemma TakenBackLater(env: Environment, from: nat, at: nat, to: nat, net: seq<Block>, n: nat)
    requires TakenBack(env, from, at, net, n) && from <= at <= to
    ensures TakenBack(env, from, to, net, n)
  {
    forall i | n <= i < |net| ensures Denied(env, from, to, net[i].ref.number, net[i].ref.hash) {
      assert Denied(env, from, at, net[i].ref.number, net[i].ref.hash);
    }
  }

  lemma DeniedLater(env: Environment, from: nat, at: nat, to: nat, number: nat, hash: Hash)
    requires Denied(env, from, at, number, hash) && at <= to
    ensures Denied(env, from, to, number, hash)
  {
  }

  lemma NewestRef(start: nat, parent: Hash, net: seq<Block>, p: Progress)
    requires Linked(start, parent, net) && Stands(start, parent, net, p) && net != []
    ensures net[|net| - 1].ref.number + 1 == p.next && net[|net| - 1].ref.hash == p.parent
  {
  }

  lemma TakenBackMore(env: Environment, from: nat, at: nat, to: nat, net: seq<Block>, n: nat)
    requires TakenBack(env, from, at, net, n) && n > 0 && from <= at < to
    requires Fetched(env, at, net[n - 1].ref.number).Found? && Fetched(env, at, net[n - 1].ref.number).block.ref.hash != net[n - 1].ref.hash
    ensures TakenBack(env, from, to, net, n - 1)
  {
    forall i | n - 1 <= i < |net| ensures Denied(env, from, to, net[i].ref.number, net[i].ref.hash) {
      if i >= n {
        assert Denied(env, from, at, net[i].ref.number, net[i].ref.hash);
      }
    }
  }

  /** `now` is `was` after a rollback that took back denied blocks, newest first. */
  ghost predicate Rolled(env: Environment, from: nat, to: nat, was: Story, now: Story) {
    && |now.net| <= |was.net| && now.net == was.net[..|now.net|]
    && |now.saved.recent| == |was.saved.recent| - (|was.net| - |now.net|)
    && now.saved.next <= was.saved.next
    && TakenBack(env, from, to, was.net, |now.net|)
  }

  /** A rollback only shortens the journal from its end. */
  lemma RolledJournal(start: nat, parent: Hash, maxRecent: nat, env: Environment, from: nat, to: nat, was: Story, now: Story)
    requires Rolled(env, from, to, was, now)
    requires Consistent(start, parent, maxRecent, was) && Consistent(start, parent, maxRecent, now)
    ensures now.saved.recent <= was.saved.recent
  {
    hide Linked, Net, TakenBack;
  }

  lemma RolledNone(env: Environment, from: nat, s: Story)
    ensures Rolled(env, from, from, s, s)
  {
  }

  lemma RolledLater(env: Environment, from: nat, at: nat, to: nat, was: Story, now: Story)
    requires Rolled(env, from, at, was, now) && from <= at <= to
    ensures Rolled(env, from, to, was, now)
  {
    TakenBackLater(env, from, at, to, was.net, |now.net|);
  }

  /** The newest block of `now` was denied at `at` and then taken back. */
  lemma RolledMore(start: nat, parent: Hash, env: Environment, from: nat, at: nat, to: nat, was: Story, now: Story)
    requires Rolled(env, from, at, was, now) && from <= at < to && now.saved.recent != [] && now.net != []
    requires Linked(start, parent, now.net) && Stands(start, parent, now.net, now.saved)
    requires Fetched(env, at, now.saved.next - 1).Found? && Fetched(env, at, now.saved.next - 1).block.ref.hash != now.saved.parent
    ensures Rolled(env, from, to, was, Removing(now))
  {
    var n := |now.net|;
    NewestRef(start, parent, now.net, now.saved);
    JournalEnd(start, parent, now.net, now.saved);
    assert was.net[n - 1] == now.net[n - 1];
    TakenBackMore(env, from, at, to, was.net, n);
  }

  lemma RolledStep(start: nat, parent: Hash, env: Environment, from: nat, at: nat, to: nat, was: Story, before: Story,
                   now: Story)
    requires Rolled(env, from, at, was, before) && from <= at < to
    requires Linked(start, parent, before.net) && Stands(start, parent, before.net, before.saved)
    requires before.saved.next > 0
    requires Fetched(env, at, before.saved.next - 1).Found? && Fetched(env, at, before.saved.next - 1).block.ref.hash != before.saved.parent
    requires now == before || (before.saved.recent != [] && before.net != [] && now == Removing(before))
    ensures Rolled(env, from, to, was, now)
  {
    if now == before {
      RolledLater(env, from, at, to, was, now);
    } else {
      RolledMore(start, parent, env, from, at, to, was, before);
    }
  }

  /** A rollback that stops: a failure, or the end of the journal. */
  ghost predicate StuckAt(env: Environment, from: nat, to: nat, bound: nat, s: Story) {
    || Disturbed(env, from, to, bound)
    || (s.saved.recent == [] && s.saved.next > 0 && Denied(env, from, to, s.saved.next - 1, s.saved.parent))
  }

  lemma StuckAfter(env: Environment, from: nat, at: nat, to: nat, bound: nat, before: Story, now: Story)
    requires from <= at <= to && before.saved.next > 0 && Denied(env, from, at, before.saved.next - 1, before.saved.parent)
    requires (before.saved.recent == [] && now == before) || Disturbed(env, at, to, 0)
    ensures StuckAt(env, from, to, bound, now)
  {
    if Disturbed(env, at, to, 0) {
      Wider(env, from, at, to, to, 0, bound);
    } else {
      DeniedLater(env, from, at, to, now.saved.next - 1, now.saved.parent);
    }
  }

  // ---- Growing --------------------------------------------------------------------------------------------------

  /** The endpoint served this very block between two calls. */
  ghost predicate Served(env: Environment, from: nat, to: nat, b: Block) {
    exists at :: from <= at < to && Fetched(env, at, b.ref.number) == Found(b)
  }

  /** `now` is `was` with more served blocks applied on top. */
  ghost predicate Grown(env: Environment, from: nat, to: nat, was: Story, now: Story) {
    && was.net <= now.net && was.log <= now.log
    && forall i :: |was.net| <= i < |now.net| ==> Served(env, from, to, now.net[i])
  }

  lemma GrownNone(env: Environment, from: nat, to: nat, s: Story)
    ensures Grown(env, from, to, s, s)
  {
  }

  lemma GrownLater(env: Environment, from: nat, at: nat, to: nat, was: Story, now: Story)
    requires Grown(env, from, at, was, now) && at <= to
    ensures Grown(env, from, to, was, now)
  {
    forall i | |was.net| <= i < |now.net| ensures Served(env, from, to, now.net[i]) {
      assert Served(env, from, at, now.net[i]);
    }
  }

  lemma GrownEither(env: Environment, from: nat, at: nat, to: nat, was: Story, before: Story, after: Story, now: Story)
    requires Grown(env, from, at, was, before) && Grown(env, from, at, was, after) && at <= to && (now == before || now == after)
    ensures Grown(env, from, to, was, now)
  {
    GrownLater(env, from, at, to, was, now);
  }

  lemma GrownMore(env: Environment, from: nat, to: nat, was: Story, now: Story, b: Block, kept: seq<Ref>)
    requires Grown(env, from, to, was, now) && Served(env, from, to, b)
    ensures Grown(env, from, to, was, Applying(now, b, kept))
  {
  }

  lemma ServedLater(env: Environment, from: nat, at: nat, to: nat, b: Block)
    requires Served(env, from, at, b) && at <= to
    ensures Served(env, from, to, b)
  {
  }

  /** A range of blocks that continues progress `p`. */
  ghost predicate Continues(p: Progress, blocks: seq<Block>) {
    && (forall i :: 0 <= i < |blocks| ==> blocks[i].ref.number == p.next + i && blocks[i].ref.hash != "" && blocks[i].ref.parent != "")
    && (blocks != [] && p.next > 0 ==> blocks[0].ref.parent == p.parent)
    && (forall i, j :: 0 <= i < j < |blocks| && j == i + 1 ==> blocks[j].ref.parent == blocks[i].ref.hash)
  }

  lemma ContinuesOne(p: Progress, block: Block)
    requires Continues(p, [block])
    ensures block.ref.number == p.next && block.ref.hash != "" && block.ref.parent != ""
    ensures p.next > 0 ==> block.ref.parent == p.parent
  {
    assert [block][0] == block;
  }

  lemma ContinuesOn(p: Progress, blocks: seq<Block>, kept: seq<Ref>)
    requires Continues(p, blocks) && blocks != []
    ensures Continues(Pushed(blocks[0].ref, kept), blocks[1..])
  {
  }

  ghost predicate AllServed(env: Environment, from: nat, to: nat, blocks: seq<Block>) {
    forall i :: 0 <= i < |blocks| ==> Served(env, from, to, blocks[i])
  }

  lemma AllServedLater(env: Environment, from: nat, at: nat, to: nat, blocks: seq<Block>)
    requires AllServed(env, from, at, blocks) && at <= to
    ensures AllServed(env, from, to, blocks)
  {
    forall i | 0 <= i < |blocks| ensures Served(env, from, to, blocks[i]) {
      assert Served(env, from, at, blocks[i]);
    }
  }

  /** Two answers for neighbouring numbers that do not fit together. */
  ghost predicate Torn(env: Environment, from: nat, to: nat, bound: nat) {
    exists a, b, m: nat, n: nat :: from <= a < to && from <= b < to && n == m + 1 < bound
      && Fetched(env, a, m).Found? && Fetched(env, b, n).Found?
      && Fetched(env, b, n).block.ref.parent != Fetched(env, a, m).block.ref.hash
  }

  /** The endpoint's block `number` does not continue `parent`. */
  ghost predicate Unlinked(env: Environment, from: nat, to: nat, number: nat, parent: Hash) {
    exists at :: from <= at < to && Fetched(env, at, number).Found? && Fetched(env, at, number).block.ref.parent != parent
  }

  lemma JournalConsecutive(start: nat, parent: Hash, maxRecent: nat, s: Story, r: Ref)
    requires Consistent(start, parent, maxRecent, s) && r.number == s.saved.next
    ensures Consecutive(s.saved.recent + [r])
  {
    var net, p := s.net, s.saved;
    RefsContiguous(start, parent, net, |net| - |p.recent|);
    if p.recent != [] {
      JournalEnd(start, parent, net, p);
    }
  }

  /** Why an advance may stop before its target: a failed call, answers that do not fit together or do not continue
      the net chain, or an announced head the endpoint no longer has. */
  ghost predicate Halted(env: Environment, from: nat, to: nat, target: nat, ann: Option<Announcement>, s: Story) {
    || Disturbed(env, from, to, target + 1)
    || Torn(env, from, to, target + 1)
    || (s.saved.next > 0 && s.saved.next <= target && Unlinked(env, from, to, s.saved.next, s.saved.parent))
    || (ann.Some? && ann.value.number <= target && Denied(env, from, to, ann.value.number, ann.value.hash))
  }

  lemma HaltedByFetch(env: Environment, from: nat, at: nat, to: nat, last: nat, target: nat, ann: Option<Announcement>,
                      s: Story)
    requires from <= at <= to && last <= target && (Disturbed(env, at, to, last + 1) || Torn(env, at, to, last + 1))
    ensures Halted(env, from, to, target, ann, s)
  {
    if Disturbed(env, at, to, last + 1) {
      Wider(env, from, at, to, to, last + 1, target + 1);
    } else {
      var a, b, m: nat, n: nat :| at <= a < to && at <= b < to && n == m + 1 < last + 1
        && Fetched(env, a, m).Found? && Fetched(env, b, n).Found?
        && Fetched(env, b, n).block.ref.parent != Fetched(env, a, m).block.ref.hash;
      assert Torn(env, from, to, target + 1);
    }
  }

  lemma HaltedByLink(env: Environment, from: nat, to: nat, target: nat, ann: Option<Announcement>, s: Story, b: Block)
    requires Served(env, from, to, b) && 0 < s.saved.next <= target && b.ref.number == s.saved.next && b.ref.parent != s.saved.parent
    ensures Halted(env, from, to, target, ann, s)
  {
    assert Unlinked(env, from, to, s.saved.next, s.saved.parent);
  }

  lemma HaltedByNews(env: Environment, from: nat, to: nat, target: nat, ann: Option<Announcement>, s: Story, b: Block)
    requires ann.Some? && Served(env, from, to, b) && b.ref.number == ann.value.number <= target && b.ref.hash != ann.value.hash
    ensures Halted(env, from, to, target, ann, s)
  {
    assert Denied(env, from, to, ann.value.number, ann.value.hash);
  }

  lemma AllServedSince(env: Environment, from: nat, at: nat, to: nat, blocks: seq<Block>)
    requires AllServed(env, at, to, blocks) && from <= at
    ensures AllServed(env, from, to, blocks)
  {
    forall i | 0 <= i < |blocks| ensures Served(env, from, to, blocks[i]) {
      assert Served(env, at, to, blocks[i]);
    }
  }

  /** The end of the net chain needs no rollback: a head announced itself as its child, or the endpoint confirmed it. */
  ghost predicate SettledBy(env: Environment, from: nat, to: nat, s: Story, ann: Option<Announcement>) {
    || (ann.Some? && ann.value.number == s.saved.next && ann.value.parent == s.saved.parent)
    || (s.saved.next > 0 && s.saved.parent != "" ==> Confirmed(env, from, to, s.saved.next - 1, s.saved.parent))
  }

  lemma SettledLater(env: Environment, from: nat, at: nat, to: nat, s: Story, ann: Option<Announcement>)
    requires SettledBy(env, from, at, s, ann) && at <= to
    ensures SettledBy(env, from, to, s, ann)
  {
  }

  // ---- A call against a chain that stands still --------------------------------------------------------------------

  /** The chain served from call `from` on shares `was` up to `fork`. */
  ghost predicate Forks(start: nat, parent: Hash, env: Environment, from: nat, was: Story, chain: seq<Block>, fork: nat) {
    && Serves(env, from, chain) && Chained(chain) && CollisionFree(was.net, chain) && start + |was.net| <= |chain|
    && fork <= |was.net| && EndsOn(start, parent, was.net, chain, fork)
  }

  /** ... and the fork is within reach of its journal. */
  ghost predicate Steady(start: nat, parent: Hash, env: Environment, from: nat, was: Story, chain: seq<Block>, fork: nat) {
    Forks(start, parent, env, from, was, chain, fork) && |was.net| - fork <= |was.saved.recent|
  }

  /** A fork less than `confirmations` below the highest target is within reach of the journal. */
  lemma ForkInReach(start: nat, parent: Hash, maxRecent: nat, confirmations: nat, top: nat, s: Story, fork: nat)
    requires Consistent(start, parent, maxRecent, s) && Journaled(confirmations, top, s) && fork <= |s.net|
    requires fork < |s.net| ==> s.net[fork].ref.number + confirmations > top
    ensures |s.net| - fork <= |s.saved.recent| && s.saved.next == start + |s.net|
  {
    var k := |s.net| - |s.saved.recent| - 1;
    if fork <= k {
      LinkedAt(start, parent, s.net, fork);
      LinkedAt(start, parent, s.net, k);
    }
  }

  lemma ServedIsCanonical(env: Environment, from: nat, to: nat, chain: seq<Block>, b: Block)
    requires Serves(env, from, chain) && Chained(chain) && Served(env, from, to, b) && b.ref.number < |chain|
    ensures b == chain[b.ref.number]
  {
    var at :| from <= at < to && Fetched(env, at, b.ref.number) == Found(b);
    assert env.answers(at, b.ref.number) == Found(chain[b.ref.number]);
  }

  lemma DeniedIsOrphan(env: Environment, from: nat, to: nat, chain: seq<Block>, number: nat, hash: Hash)
    requires Serves(env, from, chain) && Chained(chain) && number < |chain|
    ensures Denied(env, from, to, number, hash) ==> chain[number].ref.hash != hash
    ensures Confirmed(env, from, to, number, hash) ==> chain[number].ref.hash == hash
    ensures Unlinked(env, from, to, number, hash) ==> chain[number].ref.parent != hash
  {
    forall at | from <= at < to ensures Fetched(env, at, number) == Found(chain[number]) {
      assert env.answers(at, number) == Found(chain[number]);
    }
  }

  lemma SteadyIsCalm(env: Environment, from: nat, to: nat, chain: seq<Block>, bound: nat)
    requires Serves(env, from, chain) && Chained(chain) && bound <= |chain|
    ensures !Disturbed(env, from, to, bound) && !Torn(env, from, to, bound)
  {
    forall at, n: nat | from <= at < to && n < bound ensures Fetched(env, at, n) == Found(chain[n]) {
      assert env.answers(at, n) == Found(chain[n]);
    }
  }

  lemma TakenBackAt(start: nat, parent: Hash, env: Environment, from: nat, to: nat, net: seq<Block>, chain: seq<Block>,
                    n: nat, i: nat)
    requires Serves(env, from, chain) && Chained(chain) && start + |net| <= |chain|
    requires Linked(start, parent, net) && TakenBack(env, from, to, net, n) && n <= i < |net|
    ensures net[i].ref.hash != chain[start + i].ref.hash
  {
    LinkedAt(start, parent, net, i);
    DeniedIsOrphan(env, from, to, chain, start + i, net[i].ref.hash);
  }

  lemma TakenBackOrphaned(start: nat, parent: Hash, env: Environment, from: nat, to: nat, was: Story, chain: seq<Block>,
                          fork: nat, n: nat)
    requires Steady(start, parent, env, from, was, chain, fork) && Linked(start, parent, was.net) && TakenBack(env, from, to, was.net, n)
    ensures Orphaned(start, was.net, n, chain) && fork <= n
  {
    forall i | n <= i < |was.net| ensures was.net[i].ref.hash != chain[start + i].ref.hash {
      TakenBackAt(start, parent, env, from, to, was.net, chain, n, i);
    }
  }

  /** The announced head belongs to the chain. */
  ghost predicate Announced(chain: seq<Block>, ann: Option<Announcement>) {
    ann.Some? ==> ann.value.number < |chain| && ann.value.hash == chain[ann.value.number].ref.hash
                  && ann.value.parent == chain[ann.value.number].ref.parent
  }

  /** Where the rollback stood when it ended, the chain agrees. */
  lemma SettledOnChain(start: nat, parent: Hash, maxRecent: nat, env: Environment, from: nat, to: nat, mid: Story,
                       ann: Option<Announcement>, chain: seq<Block>)
    requires Consistent(start, parent, maxRecent, mid) && SettledBy(env, from, to, mid, ann)
    requires Serves(env, from, chain) && Chained(chain) && mid.saved.next <= |chain| && Announced(chain, ann)
    ensures EndsOn(start, parent, mid.net, chain, |mid.net|)
  {
    if mid.saved.next > 0 {
      if ann.Some? && ann.value.number == mid.saved.next && ann.value.parent == mid.saved.parent {
        assert chain[mid.saved.next].ref.parent == chain[mid.saved.next - 1].ref.hash;
      } else {
        SavedIsValid(start, parent, maxRecent, mid);
        DeniedIsOrphan(env, from, to, chain, mid.saved.next - 1, mid.saved.parent);
      }
    }
  }

  /** A journal that has run out has run out at the fork, where the chain agrees. */
  lemma ForkReached(start: nat, parent: Hash, env: Environment, from: nat, to: nat, was: Story, mid: Story,
                    chain: seq<Block>, fork: nat)
    requires Steady(start, parent, env, from, was, chain, fork) && Rolled(env, from, to, was, mid)
    requires mid.saved.recent == [] && fork <= |mid.net|
    ensures EndsOn(start, parent, mid.net, chain, |mid.net|)
  {
    assert fork == |mid.net|;
  }

  lemma EndsOnSaved(start: nat, parent: Hash, mid: Story, chain: seq<Block>)
    requires Stands(start, parent, mid.net, mid.saved) && Linked(start, parent, mid.net) && mid.saved.next > 0
    requires EndsOn(start, parent, mid.net, chain, |mid.net|)
    ensures mid.saved.next <= |chain| && chain[mid.saved.next - 1].ref.hash == mid.saved.parent
  {
  }

  /** The journal does not end above the fork. */
  lemma NeverStuck(start: nat, parent: Hash, maxRecent: nat, env: Environment, from: nat, to: nat, was: Story,
                   mid: Story, chain: seq<Block>, fork: nat)
    requires Consistent(start, parent, maxRecent, was) && Consistent(start, parent, maxRecent, mid)
    requires Steady(start, parent, env, from, was, chain, fork) && Rolled(env, from, to, was, mid)
    ensures !StuckAt(env, from, to, was.saved.next, mid)
  {
    assert !Disturbed(env, from, to, was.saved.next) by {
      SteadyIsCalm(env, from, to, chain, was.saved.next);
    }
    if mid.saved.recent == [] && mid.saved.next > 0 {
      NeverExhausted(start, parent, maxRecent, env, from, to, was, mid, chain, fork);
    }
  }

  lemma NeverExhausted(start: nat, parent: Hash, maxRecent: nat, env: Environment, from: nat, to: nat, was: Story,
                       mid: Story, chain: seq<Block>, fork: nat)
    requires Linked(start, parent, was.net) && Linked(start, parent, mid.net) && Stands(start, parent, mid.net, mid.saved)
    requires Steady(start, parent, env, from, was, chain, fork) && Rolled(env, from, to, was, mid)
    requires mid.saved.recent == [] && mid.saved.next > 0
    ensures !Denied(env, from, to, mid.saved.next - 1, mid.saved.parent)
  {
    TakenBackOrphaned(start, parent, env, from, to, was, chain, fork, |mid.net|);
    ForkReached(start, parent, env, from, to, was, mid, chain, fork);
    EndsOnSaved(start, parent, mid, chain);
    NotDenied(env, from, to, chain, mid.saved.next - 1, mid.saved.parent);
  }

  lemma NotDenied(env: Environment, from: nat, to: nat, chain: seq<Block>, number: nat, hash: Hash)
    requires Serves(env, from, chain) && Chained(chain) && number < |chain| && chain[number].ref.hash == hash
    ensures !Denied(env, from, to, number, hash)
  {
    DeniedIsOrphan(env, from, to, chain, number, hash);
  }

  lemma GrownCanonical(start: nat, parent: Hash, maxRecent: nat, env: Environment, from: nat, to: nat, mid: Story,
                       now: Story, chain: seq<Block>)
    requires Consistent(start, parent, maxRecent, now) && Grown(env, from, to, mid, now)
    requires Serves(env, from, chain) && Chained(chain) && Canonical(start, mid.net, chain) && now.saved.next <= |chain|
    ensures Canonical(start, now.net, chain)
  {
    forall i | 0 <= i < |now.net| ensures now.net[i] == chain[start + i] {
      if i >= |mid.net| {
        LinkedAt(start, parent, now.net, i);
        ServedIsCanonical(env, from, to, chain, now.net[i]);
      }
    }
  }

  lemma NeverHalted(start: nat, parent: Hash, maxRecent: nat, env: Environment, from: nat, to: nat, target: nat,
                    ann: Option<Announcement>, now: Story, chain: seq<Block>)
    requires Consistent(start, parent, maxRecent, now) && Canonical(start, now.net, chain)
    requires Serves(env, from, chain) && Chained(chain) && target < |chain| && Announced(chain, ann)
    requires now.saved.next > 0 ==> now.saved.next <= |chain| && now.saved.parent == chain[now.saved.next - 1].ref.hash
    ensures !Halted(env, from, to, target, ann, now)
  {
    SteadyIsCalm(env, from, to, chain, target + 1);
    if now.saved.next > 0 && now.saved.next <= target {
      DeniedIsOrphan(env, from, to, chain, now.saved.next, now.saved.parent);
      assert chain[now.saved.next].ref.parent == chain[now.saved.next - 1].ref.hash;
    }
    if ann.Some? && ann.value.number <= target {
      DeniedIsOrphan(env, from, to, chain, ann.value.number, ann.value.hash);
    }
  }

  /** A finished call: `mid` is where its rollback left off. */
  ghost predicate Called(start: nat, parent: Hash, maxRecent: nat, env: Environment, from: nat, to: nat,
                         was: Story, mid: Story, now: Story, ann: Option<Announcement>) {
    && Consistent(start, parent, maxRecent, was) && Consistent(start, parent, maxRecent, mid) && Consistent(start, parent, maxRecent, now)
    && Rolled(env, from, to, was, mid) && Grown(env, from, to, mid, now)
    && (SettledBy(env, from, to, mid, ann) || (now == mid && StuckAt(env, from, to, was.saved.next, mid)))
  }

  lemma PrefixStays(env: Environment, from: nat, to: nat, was: Story, mid: Story, now: Story)
    requires Rolled(env, from, to, was, mid) && Grown(env, from, to, mid, now)
    ensures |mid.net| <= |was.net| && was.net[..|mid.net|] == mid.net && mid.net <= now.net
  {
  }

  lemma RollbackMends(start: nat, parent: Hash, maxRecent: nat, env: Environment, from: nat, to: nat, was: Story,
                      mid: Story, now: Story,
                      ann: Option<Announcement>, chain: seq<Block>, fork: nat)
    requires Called(start, parent, maxRecent, env, from, to, was, mid, now, ann)
    requires Steady(start, parent, env, from, was, chain, fork) && Announced(chain, ann)
    ensures Orphaned(start, was.net, |mid.net|, chain) && !StuckAt(env, from, to, was.saved.next, mid)
    ensures EndsOn(start, parent, mid.net, chain, |mid.net|)
  {
    NeverStuck(start, parent, maxRecent, env, from, to, was, mid, chain, fork);
    TakenBackOrphaned(start, parent, env, from, to, was, chain, fork, |mid.net|);
    SettledOnChain(start, parent, maxRecent, env, from, to, mid, ann, chain);
  }

  lemma EndIsCanonical(start: nat, parent: Hash, env: Environment, from: nat, to: nat, mid: Story, now: Story,
                       chain: seq<Block>)
    requires Stands(start, parent, now.net, now.saved) && Grown(env, from, to, mid, now)
    requires EndsOn(start, parent, mid.net, chain, |mid.net|) && Canonical(start, now.net, chain)
    ensures now.saved.next > 0 ==> now.saved.next <= |chain| && now.saved.parent == chain[now.saved.next - 1].ref.hash
  {
  }

  /** With the canonical chain fixed during the call, the rollback removes exactly the orphaned suffix and whatever is
      applied on top is canonical; nothing stops it short of its target. */
  lemma AdvanceMends(start: nat, parent: Hash, maxRecent: nat, env: Environment, from: nat, to: nat, was: Story,
                     mid: Story, now: Story,
                     target: nat, ann: Option<Announcement>, chain: seq<Block>, fork: nat)
    requires Called(start, parent, maxRecent, env, from, to, was, mid, now, ann)
    requires Steady(start, parent, env, from, was, chain, fork) && Announced(chain, ann)
    requires target < |chain| && now.saved.next <= |chain|
    ensures Canonical(start, mid.net, chain) && Orphaned(start, was.net, |mid.net|, chain) && Canonical(start, now.net, chain)
    ensures !Halted(env, from, to, target, ann, now) && !StuckAt(env, from, to, was.saved.next, mid)
  {
    RollbackMends(start, parent, maxRecent, env, from, to, was, mid, now, ann, chain, fork);
    MidIsCanonical(start, parent, was, mid, chain);
    GrownCanonical(start, parent, maxRecent, env, from, to, mid, now, chain);
    EndIsCanonical(start, parent, env, from, to, mid, now, chain);
    NeverHalted(start, parent, maxRecent, env, from, to, target, ann, now, chain);
  }

  /** The net chain `after` is canonical; of `before` exactly the newest `removed` blocks, all of them orphans, are gone. */
  ghost predicate Mended(start: nat, chain: seq<Block>, before: seq<Block>, after: seq<Block>, removed: nat) {
    && Canonical(start, after, chain)
    && removed <= |before| && before[..|before| - removed] <= after
    && Canonical(start, before[..|before| - removed], chain)
    && Orphaned(start, before, |before| - removed, chain)
  }

  lemma CallMends(start: nat, parent: Hash, maxRecent: nat, env: Environment, from: nat, to: nat, was: Story, mid: Story,
                  now: Story,
                  target: nat, ann: Option<Announcement>, chain: seq<Block>, fork: nat) returns (removed: nat)
    requires Called(start, parent, maxRecent, env, from, to, was, mid, now, ann)
    requires Steady(start, parent, env, from, was, chain, fork) && Announced(chain, ann)
    requires target < |chain| && now.saved.next <= |chain|
    ensures Mended(start, chain, was.net, now.net, removed)
    ensures !Halted(env, from, to, target, ann, now) && !StuckAt(env, from, to, was.saved.next, mid)
  {
    AdvanceMends(start, parent, maxRecent, env, from, to, was, mid, now, target, ann, chain, fork);
    PrefixStays(env, from, to, was, mid, now);
    removed := |was.net| - |mid.net|;
  }

  lemma MidIsCanonical(start: nat, parent: Hash, was: Story, mid: Story, chain: seq<Block>)
    requires Linked(start, parent, mid.net) && Chained(chain) && CollisionFree(was.net, chain) && start + |was.net| <= |chain|
    requires |mid.net| <= |was.net| && mid.net == was.net[..|mid.net|] && EndsOn(start, parent, mid.net, chain, |mid.net|)
    ensures Canonical(start, mid.net, chain)
  {
    EndsOnCanonical(start, parent, mid.net, chain, |mid.net|);
    assert mid.net[..|mid.net|] == mid.net;
  }

  // ---- The follower ----------------------------------------------------------------------------------------------

  datatype Outcome = Fine | Fails

  const DEFAULT_BATCH: nat := 32

  datatype Range = Blocks(blocks: seq<Block>) | Missing | Failed

  /** How one block of an advance ends: applied, not yet (its receipt is missing), or with an error. */
  datatype ApplyEnd = All | Waits | Breaks

  /** How one round of a rollback ends. */
  datatype RoundEnd = Confirms | Again | Stops

  lemma StartsConsistent(start: nat, parent: Hash, maxRecent: nat)
    requires start > 0 ==> parent != ""
    ensures Consistent(start, parent, maxRecent, Story(Progress(start, parent, []), [], []))
  {
  }

  class Follower {
    const start: nat
    const parent: Hash
    const confirmations: nat
    const maxRecent: nat
    const batch: nat
    const env: Environment

    /** The durable checkpoint, and the story behind it. */
    var saved: Progress
    ghost var story: Story
    /** The highest target any call was made for. */
    ghost var top: nat
    /** The caller's copy of the progress, and how many outside calls were made. */
    var progress: Progress
    var clock: nat

    /** What holds at every commit, and therefore wherever the process may be stopped. */
    ghost predicate Valid()
      reads this
    {
      && ValidConfig(confirmations, maxRecent) && story.saved == saved && Consistent(start, parent, maxRecent, story)
      && Journaled(confirmations, top, story)
    }

    /** loadProgress without a checkpoint: begin at `start`, after the canonical `parent`. */
    constructor (start: nat, parent: Hash, confirmations: nat, maxRecent: nat, batch: nat, env: Environment)
      requires ValidConfig(confirmations, maxRecent)
      requires start > 0 ==> parent != ""
      ensures Valid() && progress == saved && story.net == [] && story.log == [] && clock == 0
      ensures this.start == start && this.parent == parent && this.env == env
    {
      this.start, this.parent := start, parent;
      this.confirmations, this.maxRecent, this.batch, this.env := confirmations, maxRecent, batch, env;
      saved, progress := Progress(start, parent, []), Progress(start, parent, []);
      clock, top, story := 0, 0, Story(Progress(start, parent, []), [], []);
      new;
      StartsConsistent(start, parent, maxRecent);
    }

    /** loadProgress with a checkpoint, as every restart does: what was saved is always accepted. */
    method Load() returns (accepted: bool)
      requires Valid()
      modifies this`progress
      ensures accepted && progress == saved
    {
      SavedIsValid(start, parent, maxRecent, story);
      if !ValidProgress(saved, maxRecent) {
        return false;
      }
      progress := saved;
      return true;
    }

    /** blockByNumber. */
    method Fetch(number: nat) returns (f: Fetch)
      modifies this`clock
      ensures f == Fetched(env, old(clock), number) && clock == old(clock) + 1
    {
      f := Fetched(env, clock, number);
      clock := clock + 1;
    }

    /** The handler's verdict. */
    method Handle() returns (h: Handling)
      modifies this`clock
      ensures h == env.handlings(old(clock)) && clock == old(clock) + 1
    {
      h := env.handlings(clock);
      clock := clock + 1;
    }

    /** commit: the delivery's update and the progress behind it become durable together, or not at all. */
    method CommitProgress(next: Progress, ghost after: Story) returns (c: Commit)
      requires Valid() && Consistent(start, parent, maxRecent, after) && after.saved == next
      requires Journaled(confirmations, top, after)
      modifies this`saved, this`story, this`progress, this`clock
      ensures Valid() && c == env.commits(old(clock)) && clock == old(clock) + 1
      ensures story == if c == Undone then old(story) else after
      ensures c == Done ==> progress == saved
    {
      c := env.commits(clock);
      clock := clock + 1;
      if c != Undone {
        saved, story := next, after;
      }
      if c == Done {
        progress := next;
      }
    }

    /** One round of rollbackOrphans: take the newest block back. */
    method TakeBack() returns (r: Outcome)
      requires Valid() && progress == saved && progress.next > 0
      modifies this`saved, this`story, this`progress, this`clock
      ensures Valid() && clock >= old(clock)
      ensures story == old(story) || (old(story).saved.recent != [] && old(story).net != [] && story == Removing(old(story)))
      ensures r == Fine ==> progress == saved && old(story).saved.recent != [] && old(story).net != [] && story == Removing(old(story))
      ensures r == Fails ==> (old(story).saved.recent == [] && story == old(story)) || Disturbed(env, old(clock), clock, 0)
    {
      r := Fails;
      if |progress.recent| == 0 {
        return;
      }
      JournalEnd(start, parent, story.net, saved);
      RemoveKeeps(start, parent, maxRecent, story);
      var last := progress.recent[|progress.recent| - 1];
      if last.number + 1 != progress.next || last.hash != progress.parent {
        return;
      }
      r := RemoveNewest();
    }

    /** The handler takes the newest block back, and the shorter journal is committed with it. */
    method RemoveNewest() returns (r: Outcome)
      requires Valid() && progress == saved && story.net != [] && saved.recent != []
      requires Consistent(start, parent, maxRecent, Removing(story)) && Removing(story).saved == Popped(saved)
      modifies this`saved, this`story, this`progress, this`clock
      ensures Valid() && clock >= old(clock)
      ensures story == old(story) || story == Removing(old(story))
      ensures r == Fine ==> progress == saved && story == Removing(old(story))
      ensures r == Fails ==> Disturbed(env, old(clock), clock, 0)
    {
      hide Consistent, Journaled;
      ghost var from := clock;
      var h := Handle();
      r := if h == Handled then Fine else Fails;
      assert h != Handled ==> env.handlings(from) != Handled;
      if h == Handled {
        RemoveJournaled(confirmations, top, story);
        var c := CommitProgress(Popped(progress), Removing(story));
        assert c == env.commits(from + 1);
        r := if c == Done then Fine else Fails;
      }
    }

    /** A rollback in progress: `was` is what it started with. */
    ghost predicate Rolls(from: nat, was: Story)
      reads this
    {
      Valid() && clock >= from && Rolled(env, from, clock, was, story)
    }

    /** The loop body of rollbackOrphans. */
    method Round(ghost from: nat, ghost was: Story) returns (round: RoundEnd)
      requires Rolls(from, was) && progress == saved && progress.next > 0 && progress.parent != ""
      modifies this`saved, this`story, this`progress, this`clock
      ensures Rolls(from, was)
      ensures round == Confirms ==> progress == saved && saved.next > 0 && Confirmed(env, from, clock, saved.next - 1, saved.parent)
      ensures round == Again ==> progress == saved && |story.net| < |old(story).net|
      ensures round == Stops ==> StuckAt(env, from, clock, was.saved.next, story)
    {
      ghost var at, before := clock, story;
      var f := Fetch(progress.next - 1);
      RolledLater(env, from, at, clock, was, story);
      if !f.Found? {
        assert !Fetched(env, at, saved.next - 1).Found?;
        return Stops;
      }
      if f.block.ref.hash == progress.parent {
        return Confirms;
      }
      assert Denied(env, from, clock, saved.next - 1, saved.parent);
      ghost var denied := clock;
      var taken := TakeBack();
      RolledStep(start, parent, env, from, at, clock, was, before, story);
      if taken == Fails {
        StuckAfter(env, from, denied, clock, was.saved.next, before, story);
        return Stops;
      }
      return Again;
    }

    /** What is known after a round, or before the first. */
    ghost predicate RoundDone(from: nat, was: Story, round: RoundEnd)
      reads this
    {
      && (round != Stops ==> progress == saved)
      && (round == Confirms ==> saved.next > 0 && Confirmed(env, from, clock, saved.next - 1, saved.parent))
      && (round == Stops ==> StuckAt(env, from, clock, was.saved.next, story))
    }

    /** The loop of rollbackOrphans. */
    method Rounds(ghost from: nat, ghost was: Story) returns (round: RoundEnd)
      requires Rolls(from, was) && progress == saved
      modifies this`saved, this`story, this`progress, this`clock
      ensures Rolls(from, was) && RoundDone(from, was, round)
      ensures round == Again ==> progress.next == 0 || progress.parent == ""
    {
      round := Again;
      while round == Again && progress.next > 0 && progress.parent != ""
        invariant Rolls(from, was) && RoundDone(from, was, round)
        decreases round == Again, |story.net|
      {
        round := Round(from, was);
      }
    }

    /** rollbackOrphans: take back the newest block for as long as the endpoint denies it. */
    method RollbackOrphans() returns (r: Outcome)
      requires Valid() && progress == saved
      modifies this`saved, this`story, this`progress, this`clock
      ensures Rolls(old(clock), old(story))
      ensures r == Fine ==> progress == saved
      ensures r == Fine && saved.next > 0 && saved.parent != "" ==> Confirmed(env, old(clock), clock, saved.next - 1, saved.parent)
      ensures r == Fails ==> StuckAt(env, old(clock), clock, old(story).saved.next, story)
    {
      RolledNone(env, clock, story);
      var round := Rounds(clock, story);
      r := if round == Stops then Fails else Fine;
    }

    /** blocksByNumber: a whole range, or the reason there is none. */
    method FetchRange(first: nat, last: nat) returns (r: Range)
      requires first <= last
      modifies this`clock
      ensures clock >= old(clock)
      ensures r.Blocks? ==> |r.blocks| == last - first + 1 && AllServed(env, old(clock), clock, r.blocks)
      ensures r.Blocks? ==> Continues(Progress(first, r.blocks[0].ref.parent, []), r.blocks)
      ensures !r.Blocks? ==> Disturbed(env, old(clock), clock, last + 1) || Torn(env, old(clock), clock, last + 1)
    {
      ghost var from := clock;
      var blocks: seq<Block> := [];
      while |blocks| < last - first + 1
        invariant |blocks| <= last - first + 1 && clock == from + |blocks|
        invariant forall i :: 0 <= i < |blocks| ==> Fetched(env, from + i, first + i) == Found(blocks[i])
      {
        var f := Fetch(first + |blocks|);
        if !f.Found? {
          assert !Fetched(env, clock - 1, first + |blocks|).Found?;
          return if f.Unavailable? then Missing else Failed;
        }
        blocks := blocks + [f.block];
      }
      var i := 1;
      while i < |blocks|
        invariant 1 <= i && (i <= |blocks| || |blocks| == 1)
        invariant forall j :: 0 < j < i && j < |blocks| ==> blocks[j].ref.parent == blocks[j - 1].ref.hash
      {
        if blocks[i].ref.parent != blocks[i - 1].ref.hash {
          assert Fetched(env, from + (i - 1), first + (i - 1)) == Found(blocks[i - 1]);
          assert Fetched(env, from + i, first + i) == Found(blocks[i]);
          return Failed;
        }
        i := i + 1;
      }
      forall i | 0 <= i < |blocks| ensures Served(env, from, clock, blocks[i]) {
        assert Fetched(env, from + i, first + i) == Found(blocks[i]);
      }
      return Blocks(blocks);
    }

    /** The journal of the next checkpoint: the block behind what is there, trimmed to the target. */
    method Journal(block: Block, target: nat) returns (kept: seq<Ref>)
      requires Valid() && progress == saved && block.ref.number == saved.next && block.ref.number <= target <= top
      requires block.ref.hash != "" && block.ref.parent != "" && (saved.next > 0 ==> block.ref.parent == saved.parent)
      ensures |kept| <= confirmations
      ensures forall r :: r in saved.recent + [block.ref] && r.number + confirmations > target ==> r in kept
      ensures Consistent(start, parent, maxRecent, Applying(story, block, kept))
      ensures Journaled(confirmations, top, Applying(story, block, kept))
    {
      hide Consistent, Journaled;
      JournalConsecutive(start, parent, maxRecent, story, block.ref);
      kept := Trim(progress.recent + [block.ref], target, confirmations);
      AppendKeeps(start, parent, maxRecent, story, block, kept);
      AppendJournaled(start, parent, maxRecent, confirmations, target, top, story, block, kept);
    }

    /** One block of the inner loop of advance: the handler, the journal, the commit. */
    method ApplyBlock(block: Block, target: nat, ghost from: nat, ghost was: Story) returns (end: ApplyEnd)
      requires Valid() && progress == saved && from <= clock && Grown(env, from, clock, was, story)
      requires Continues(progress, [block]) && block.ref.number <= target <= top && Served(env, from, clock, block)
      requires Retains(confirmations, target, was, story)
      modifies this`saved, this`story, this`progress, this`clock
      ensures Valid() && clock >= old(clock) && Grown(env, from, clock, was, story)
      ensures end == All ==> saved == Pushed(block.ref, saved.recent) && |saved.recent| <= confirmations
      ensures saved != old(saved) ==>
        forall r :: r in old(saved).recent + [block.ref] && r.number + confirmations > target ==> r in saved.recent
      ensures Retains(confirmations, target, was, story)
      ensures saved.next <= old(saved).next + 1
      ensures end != Breaks ==> progress == saved
      ensures end != All ==> Disturbed(env, from, clock, 0)
    {
      hide Consistent, Grown, Served, Retains, Journaled, Continues;
      ghost var at := clock;
      ContinuesOne(progress, block);
      var h := Handle();
      GrownLater(env, from, at, clock, was, story);
      if h != Handled {
        assert env.handlings(at) != Handled;
        return if h == NoReceipt then Waits else Breaks;
      }
      var kept := Journal(block, target);
      if |kept| > maxRecent {
        return Breaks;
      }
      AppendRetains(confirmations, target, was, story, block, kept);
      ServedLater(env, from, at, clock, block);
      end := CommitBlock(block, kept, target, from, was);
    }

    /** The applied block and the journal behind it become durable together. */
    method CommitBlock(block: Block, kept: seq<Ref>, ghost target: nat, ghost from: nat, ghost was: Story) returns (end: ApplyEnd)
      requires Valid() && Consistent(start, parent, maxRecent, Applying(story, block, kept))
      requires Journaled(confirmations, top, Applying(story, block, kept))
      requires Retains(confirmations, target, was, story) && Retains(confirmations, target, was, Applying(story, block, kept))
      requires from <= clock && Grown(env, from, clock, was, story) && Served(env, from, clock, block)
      modifies this`saved, this`story, this`progress, this`clock
      ensures Valid() && clock >= old(clock) && Grown(env, from, clock, was, story)
      ensures Retains(confirmations, target, was, story)
      ensures end == All ==> progress == saved && saved == Pushed(block.ref, kept)
      ensures end == All || end == Breaks
      ensures saved == old(saved) || saved == Pushed(block.ref, kept)
      ensures end == Breaks ==> Disturbed(env, from, clock, 0)
    {
      ghost var before, after, later := story, Applying(story, block, kept), clock;
      GrownMore(env, from, clock, was, before, block, kept);
      var c := CommitProgress(Pushed(block.ref, kept), after);
      GrownEither(env, from, later, clock, was, before, after, story);
      if c == Done {
        end := All;
      } else {
        assert c == env.commits(later);
        end := Breaks;
      }
    }

    /** The inner loop of advance over one fetched range. */
    method ApplyBlocks(blocks: seq<Block>, target: nat, ghost from: nat, ghost was: Story) returns (end: ApplyEnd)
      requires Valid() && progress == saved && from <= clock && Grown(env, from, clock, was, story)
      requires Continues(progress, blocks) && progress.next + |blocks| <= target + 1 && AllServed(env, from, clock, blocks)
      requires target <= top && Retains(confirmations, target, was, story)
      modifies this`saved, this`story, this`progress, this`clock
      ensures Valid() && clock >= old(clock) && Grown(env, from, clock, was, story)
      ensures end != Breaks ==> progress == saved
      ensures Retains(confirmations, target, was, story)
      ensures saved.next <= old(saved).next + |blocks| && (end == All ==> saved.next == old(saved).next + |blocks|)
      ensures end == All && blocks != [] ==> |saved.recent| <= confirmations
      ensures end != All ==> Disturbed(env, from, clock, 0)
    {
      hide Consistent, Grown, Served, Retains, Journaled, Disturbed;
      var i := 0;
      while i < |blocks|
        invariant i <= |blocks| && Valid() && progress == saved && clock >= old(clock)
        invariant Grown(env, from, clock, was, story) && AllServed(env, from, clock, blocks)
        invariant Retains(confirmations, target, was, story)
        invariant Continues(progress, blocks[i..]) && saved.next == old(saved).next + i
        invariant i > 0 ==> |saved.recent| <= confirmations
      {
        ghost var at, before, rest := clock, saved, blocks[i..];
        assert rest[0] == blocks[i] && rest[1..] == blocks[i + 1..];
        end := ApplyBlock(blocks[i], target, from, was);
        if end != All {
          return;
        }
        ContinuesOn(before, rest, saved.recent);
        AllServedLater(env, from, at, clock, blocks);
        i := i + 1;
      }
      return All;
    }

    /** One batch of advance: fetch a range, check that it continues the net chain, apply it. */
    method AdvanceBatch(target: nat, ann: Option<Announcement>, ghost from: nat, ghost was: Story) returns (end: ApplyEnd)
      requires Valid() && progress == saved && from <= clock && Grown(env, from, clock, was, story) && progress.next <= target
      requires target <= top && Retains(confirmations, target, was, story)
      modifies this`saved, this`story, this`progress, this`clock
      ensures Valid() && clock >= old(clock) && Grown(env, from, clock, was, story)
      ensures Retains(confirmations, target, was, story)
      ensures end != Breaks ==> progress == saved
      ensures saved.next <= target + 1 && (end == All ==> old(saved).next < saved.next)
      ensures end != All ==> Halted(env, from, clock, target, ann, story)
    {
      hide Consistent, Grown, Retains, Journaled, Disturbed, Torn;
      ghost var at := clock;
      var size := if batch == 0 then DEFAULT_BATCH else batch;
      var last := target;
      if size < target - progress.next + 1 {
        last := progress.next + size - 1;
      }
      var range := FetchRange(progress.next, last);
      GrownLater(env, from, at, clock, was, story);
      if !range.Blocks? {
        HaltedByFetch(env, from, at, clock, last, target, ann, story);
        return if range.Missing? then Waits else Breaks;
      }
      var blocks := range.blocks;
      if |blocks| == 0 {
        return Breaks;
      }
      AllServedSince(env, from, at, clock, blocks);
      if progress.next > 0 && blocks[0].ref.parent != progress.parent {
        HaltedByLink(env, from, clock, target, ann, story, blocks[0]);
        return Breaks;
      }
      if ann.Some? && last == ann.value.number && blocks[|blocks| - 1].ref.hash != ann.value.hash {
        HaltedByNews(env, from, clock, target, ann, story, blocks[|blocks| - 1]);
        return Waits;
      }
      end := ApplyBlocks(blocks, target, from, was);
      if end != All {
        Wider(env, from, from, clock, clock, 0, target + 1);
      }
    }

    /** advance. Against any endpoint the net chain is rolled back over denied blocks and then only grows by served
        ones; it falls short of the target only for one of the reasons in `Halted` or because the rollback got stuck. */
    method Advance(target: nat, ann: Option<Announcement>) returns (r: Outcome, ghost mid: Story)
      requires Valid() && progress == saved
      modifies this
      ensures Valid() && clock >= old(clock) && (r == Fine ==> progress == saved)
      ensures Rolled(env, old(clock), clock, old(story), mid) && Grown(env, old(clock), clock, mid, story)
      ensures Consistent(start, parent, maxRecent, mid) && mid.saved.recent <= old(saved).recent
      ensures Retains(confirmations, target, mid, story) && top == (if target > old(top) then target else old(top))
      ensures SettledBy(env, old(clock), clock, mid, ann) || (story == mid && StuckAt(env, old(clock), clock, old(story).saved.next, story))
      ensures saved.next <= target + 1 || saved.next <= old(saved).next
      ensures r == Fails || saved.next <= target ==>
        Halted(env, old(clock), clock, target, ann, story) ||
        (story == mid && StuckAt(env, old(clock), clock, old(story).saved.next, story))
    {
      hide Consistent, TakenBack, Grown, Retains, Journaled, Halted, StuckAt;
      ghost var from := clock;
      mid := story;
      JournaledHigher(confirmations, top, if target > top then target else top, story);
      RetainsAll(confirmations, target, story);
      top := if target > top then target else top;
      RolledNone(env, clock, story);
      GrownNone(env, from, clock, story);
      if !(ann.Some? && ann.value.number == progress.next && ann.value.parent == progress.parent) {
        r := RollbackOrphans();
        mid := story;
        RetainsAll(confirmations, target, story);
        RolledJournal(start, parent, maxRecent, env, from, clock, old(story), mid);
        GrownNone(env, from, clock, story);
        if r == Fails {
          return;
        }
      }
      assert SettledBy(env, from, clock, mid, ann);
      while progress.next <= target
        invariant Valid() && progress == saved && clock >= from
        invariant Rolled(env, from, clock, old(story), mid) && Grown(env, from, clock, mid, story)
        invariant SettledBy(env, from, clock, mid, ann) && Retains(confirmations, target, mid, story)
        invariant top == if target > old(top) then target else old(top)
        invariant saved.next <= target + 1 || saved.next <= old(saved).next
        decreases target + 1 - progress.next
      {
        ghost var at := clock;
        var end := AdvanceBatch(target, ann, from, mid);
        RolledLater(env, from, at, clock, old(story), mid);
        SettledLater(env, from, at, clock, mid, ann);
        if end != All {
          return if end == Waits then Fine else Fails, mid;
        }
      }
      return Fine, mid;
    }

    /** A call during which the canonical chain stands still, its fork from the net chain less than `confirmations`
        below the highest target of the calls before: exactly the orphaned blocks are removed, and the net chain ends
        as a canonical prefix that covers the target. */
    method AdvanceOnFixedChain(target: nat, ann: Option<Announcement>, ghost chain: seq<Block>, ghost fork: nat)
      returns (r: Outcome, ghost removed: nat)
      requires Valid() && progress == saved && target < |chain| && Announced(chain, ann)
      requires Forks(start, parent, env, clock, story, chain, fork)
      requires fork < |story.net| ==> story.net[fork].ref.number + confirmations > top
      modifies this
      ensures Valid() && r == Fine && progress == saved && saved.next > target
      ensures Mended(start, chain, old(story).net, story.net, removed)
    {
      hide Consistent, Journaled, Rolled, Grown, Retains, Mended, Linked, Serves, Chained, Announced;
      ghost var from, was := clock, story;
      ghost var mid;
      ForkInReach(start, parent, maxRecent, confirmations, top, story, fork);
      r, mid := Advance(target, ann);
      removed := CallMends(start, parent, maxRecent, env, from, clock, was, mid, story, target, ann, chain, fork);
    }

    /** Any number of calls, each against whatever the endpoint says, with a restart after every failure. */
    method Follow(targets: seq<nat>, anns: seq<Option<Announcement>>)
      requires Valid() && progress == saved && |anns| == |targets|
      modifies this
      ensures Valid() && progress == saved && ValidProgress(saved, maxRecent)
    {
      hide Consistent, Journaled, Rolled, Grown, Retains, Halted, StuckAt, SettledBy, ValidProgress;
      for i := 0 to |targets|
        invariant Valid() && progress == saved
      {
        var r, _ := Advance(targets[i], anns[i]);
        if r == Fails {
          var accepted := Load();
          assert accepted;
        }
      }
      SavedIsValid(start, parent, maxRecent, story);
    }
  }
}
