/** internal/daemon/worker.go: how the daemon turns a worker's frame into the store's. */
module Daemons {
  import opened Schema
  import opened Transactions
  import opened Protocol
  import opened Sorting
  import opened Stores
  import Hashing

  // ---- The loops of transaction --------------------------------------------------------------------

  function ByText(): (string, string) -> bool {
    (a: string, b: string) => Hashing.Before(a, b)
  }

  lemma TextOrder()
    ensures StrictOrder(ByText())
  {
    forall a: string, b: string | ByText()(a, b) ensures !ByText()(b, a) {
      Hashing.BeforeAsymmetric(a, b);
    }
    forall a: string, b: string, c: string | ByText()(a, b) && ByText()(b, c) ensures ByText()(a, c) {
      Hashing.BeforeTransitive(a, b, c);
    }
  }

  /** Keys in the unspecified order in which a map or a table is walked. */
  method Walk<K(==)>(keys: set<K>) returns (out: seq<K>)
    ensures forall k :: k in out <==> k in keys
    ensures forall i, j :: 0 <= i < j < |out| ==> out[i] != out[j]
  {
    out := [];
    var todo := keys;
    while todo != {}
      invariant todo <= keys && forall k :: k in out <==> k in keys && k !in todo
      invariant forall i, j :: 0 <= i < j < |out| ==> out[i] != out[j]
      decreases |todo|
    {
      var k :| k in todo;
      todo := todo - {k};
      out := out + [k];
    }
  }

  lemma SortedWalk(out: seq<string>)
    requires forall i, j :: 0 <= i < j < |out| ==> out[i] != out[j]
    ensures Ascending(ByText(), Sort(ByText(), out)) && forall k :: k in Sort(ByText(), out) <==> k in out
  {
    TextOrder();
    forall i, j | 0 <= i < j < |out| ensures ByText()(out[i], out[j]) || ByText()(out[j], out[i]) {
      Hashing.BeforeTotal(out[i], out[j]);
    }
    SortAscending(ByText(), out);
    SortBag(ByText(), out);
    assert forall k :: k in Sort(ByText(), out) <==> k in multiset(Sort(ByText(), out));
    assert forall k :: k in out <==> k in multiset(out);
  }

  /** The mutations run through the checkpoints in the order of their sources. */
  ghost predicate InOrder(ms: seq<Mutation>) {
    forall i, j :: 0 <= i < j < |ms| ==> Hashing.Before(ms[i].source, ms[j].source)
  }

  method ListCheckpoints(checkpoints: map<string, Json>) returns (ms: seq<Mutation>)
    ensures Lists(ms, checkpoints) && InOrder(ms)
  {
    var found := Walk(checkpoints.Keys);
    var keys := Sort(ByText(), found);
    SortedWalk(found);
    ms := [];
    for i := 0 to |keys|
      invariant |ms| == i && forall n :: 0 <= n < i ==> ms[n] == Mutation(keys[n], checkpoints[keys[n]])
    {
      assert keys[i] in checkpoints.Keys;
      ms := ms + [Mutation(keys[i], checkpoints[keys[i]])];
    }
    KeysListed(keys, checkpoints, ms);
  }

  lemma KeysListed(keys: seq<string>, checkpoints: map<string, Json>, ms: seq<Mutation>)
    requires Ascending(ByText(), keys) && (forall k :: k in keys <==> k in checkpoints) && |ms| == |keys|
    requires forall n :: 0 <= n < |keys| ==> keys[n] in checkpoints && ms[n] == Mutation(keys[n], checkpoints[keys[n]])
    ensures Lists(ms, checkpoints) && InOrder(ms)
  {
    forall i, j | 0 <= i < j < |ms| ensures Hashing.Before(ms[i].source, ms[j].source) && ms[i].source != ms[j].source {
      assert ByText()(keys[i], keys[j]);
      Hashing.BeforeAsymmetric(keys[i], keys[j]);
    }
    forall s | s in checkpoints ensures Mutation(s, checkpoints[s]) in ms {
      var n :| 0 <= n < |keys| && keys[n] == s;
      assert ms[n] in ms;
    }
  }

  method ListDeliveries(bindings: seq<BindingKey>) returns (ds: seq<OutboxDelivery>)
    ensures |ds| == |bindings| && forall i :: 0 <= i < |ds| ==> ds[i] == OutboxDelivery(bindings[i].dest, bindings[i].revision)
  {
    ds := [];
    for i := 0 to |bindings|
      invariant |ds| == i && forall n :: 0 <= n < i ==> ds[n] == OutboxDelivery(bindings[n].dest, bindings[n].revision)
    {
      ds := ds + [OutboxDelivery(bindings[i].dest, bindings[i].revision)];
    }
  }

  method ListEvents(f: WireFrame, bindings: seq<BindingKey>, ghost ds: seq<OutboxDelivery>) returns (es: seq<OutboxEvent>)
    requires |ds| == |bindings| && forall i :: 0 <= i < |ds| ==> ds[i] == OutboxDelivery(bindings[i].dest, bindings[i].revision)
    ensures es == OutboxEvents(f, ds)
  {
    es := [];
    for i := 0 to |f.events|
      invariant |es| == i && forall n :: 0 <= n < i ==> es[n] == OutboxEvents(f, ds)[n]
    {
      var deliveries := ListDeliveries(bindings);
      assert deliveries == ds;
      es := es + [OutboxEvent(Derived(f.dep, f.gen, f.seqno, i), f.events[i].id, f.events[i].message, deliveries)];
    }
  }

  /** Rows of one query: every active binding once. */
  ghost predicate Listing(db: Db, dep: DeploymentId, rows: seq<BindingKey>) {
    && (forall k :: k in rows <==> k in ActiveBindings(db, dep))
    && (forall i, j :: 0 <= i < j < |rows| ==> rows[i] != rows[j])
  }

  lemma ListingAddresses(rows: seq<BindingKey>, dep: DeploymentId, ds: seq<OutboxDelivery>)
    requires (forall k :: k in rows ==> k.dep == dep) && (forall i, j :: 0 <= i < j < |rows| ==> rows[i] != rows[j])
    requires |ds| == |rows| && forall i :: 0 <= i < |ds| ==> ds[i] == OutboxDelivery(rows[i].dest, rows[i].revision)
    ensures Addresses(ds, (set k | k in rows), dep)
  {
    forall i, j | 0 <= i < j < |ds| ensures ds[i] != ds[j] {
      assert rows[i] in rows && rows[j] in rows && rows[i] != rows[j];
    }
    forall d | d in ds ensures BindingKey(dep, d.dest, d.revision) in rows {
      var i :| 0 <= i < |ds| && ds[i] == d;
      assert rows[i] in rows;
    }
    forall k | k in rows ensures OutboxDelivery(k.dest, k.revision) in ds {
      var i :| 0 <= i < |rows| && rows[i] == k;
      assert ds[i] in ds;
    }
  }

  // ---- The daemon's worker ----------------------------------------------------------------------------

  /** A frame checked against its worker, with the bindings listed for it. */
  datatype Prepared = Prepared(frame: WireFrame, bindings: seq<BindingKey>)

  class DaemonWorker {
    const key: GenKey
    const token: Token
    const maxEvents: nat
    const store: Store

    constructor (key: GenKey, token: Token, maxEvents: nat, store: Store)
      ensures this.key == key && this.token == token && this.maxEvents == maxEvents && this.store == store
    {
      this.key, this.token, this.maxEvents, this.store := key, token, maxEvents, store;
    }

    /** The checks, and the read of the bindings on its own connection. */
    method Prepare(f: WireFrame) returns (r: Result<Prepared>)
      ensures r.Ok? <==>
        f.dep == key.dep && f.gen == key.gen && f.token == token && f.hash == HashFrame(f) && |f.events| <= maxEvents
      ensures r.Ok? ==> r.value.frame == f
      ensures r.Ok? && f.events != [] ==> Listing(store.db, key.dep, r.value.bindings)
      ensures r.Ok? && f.events == [] ==> r.value.bindings == []
      ensures r.Ok? ==> forall k :: k in r.value.bindings ==> k.dep == key.dep
      ensures r.Ok? ==> forall i, j :: 0 <= i < j < |r.value.bindings| ==> r.value.bindings[i] != r.value.bindings[j]
    {
      if f.dep != key.dep || f.gen != key.gen || f.token != token {
        return Err(Error.Fenced);
      }
      if f.hash != HashFrame(f) {
        return Err(PayloadConflict);
      }
      if |f.events| > maxEvents {
        return Err(InvalidInput);
      }
      var bindings: seq<BindingKey> := [];
      if f.events != [] {
        bindings := Walk(ActiveBindings(store.db, key.dep));
      }
      r := Ok(Prepared(f, bindings));
    }

    /** The frame the store is given: every checkpoint and every event of the worker's frame, each event addressed
        to every listed binding. */
    method BuildFrame(p: Prepared) returns (frame: Frame, ghost ds: seq<OutboxDelivery>)
      requires forall k :: k in p.bindings ==> k.dep == key.dep
      requires forall i, j :: 0 <= i < j < |p.bindings| ==> p.bindings[i] != p.bindings[j]
      requires p.frame.token == token
      ensures Lists(frame.checkpoints, p.frame.checkpoints) && InOrder(frame.checkpoints)
      ensures Addresses(ds, (set k | k in p.bindings), key.dep)
      ensures frame == StoreFrame(p.frame, frame.checkpoints, ds)
      ensures frame.dep == p.frame.dep && frame.gen == p.frame.gen && frame.token == p.frame.token && frame.hash == p.frame.hash
      ensures frame.seqno == p.frame.seqno && frame.base == p.frame.base && frame.next == p.frame.next
      ensures |frame.events| == |p.frame.events|
      ensures forall i :: 0 <= i < |frame.events| ==>
        && frame.events[i].eventId == p.frame.events[i].id && frame.events[i].message == p.frame.events[i].message
        && frame.events[i].outboxId == Derived(p.frame.dep, p.frame.gen, p.frame.seqno, i) && frame.events[i].deliveries == ds
    {
      var f := p.frame;
      var checkpoints := ListCheckpoints(f.checkpoints);
      var deliveries := ListDeliveries(p.bindings);
      ListingAddresses(p.bindings, key.dep, deliveries);
      var events := ListEvents(f, p.bindings, deliveries);
      frame := Frame(f.dep, f.gen, token, f.seqno, f.base, f.next, checkpoints, events, f.hash);
      ds := deliveries;
    }

    /** The write, later: other writes may have come between, and the store decides on the tables as they are now. */
    method HandOver(p: Prepared, now: int) returns (r: Result<Ack>, ghost frame: Frame, ghost ds: seq<OutboxDelivery>)
      requires forall k :: k in p.bindings ==> k.dep == key.dep
      requires forall i, j :: 0 <= i < j < |p.bindings| ==> p.bindings[i] != p.bindings[j]
      requires p.frame.token == token && store.Valid()
      modifies store
      ensures store.Valid()
      ensures Lists(frame.checkpoints, p.frame.checkpoints) && Addresses(ds, (set k | k in p.bindings), key.dep)
      ensures frame == StoreFrame(p.frame, frame.checkpoints, ds)
      ensures r == Apply(old(store.db), frame, now).reply && store.db == Apply(old(store.db), frame, now).db
    {
      var built, listed := BuildFrame(p);
      r := store.ApplyTransaction(built, now, Committed, true);
      frame, ds := built, listed;
    }
  }

  // ---- The same steps in the protocol world --------------------------------------------------------------

  /** What Prepare promises about a frame it accepts. */
  ghost predicate Prepares(db: Db, key: GenKey, p: Prepared) {
    if p.frame.events == [] then p.bindings == [] else Listing(db, key.dep, p.bindings)
  }

  /** Preparing the frame at the head of the pipe is the daemon's Take. */
  lemma PrepareIsTake(db: Db, key: GenKey, w: Worker, p: Prepared)
    requires w.up != [] && w.up[0] == p.frame && Genuine(key, w, p.frame) && Prepares(db, key, p)
    ensures Accepts(db, key, w) == w.(up := w.up[1..], phase := Bound(p.frame, set k | k in p.bindings))
  {
    assert p.frame.events != [] ==> (set k | k in p.bindings) == ActiveBindings(db, key.dep);
    assert p.frame.events == [] ==> (set k | k in p.bindings) == {};
  }

  /** Handing it over later, on whatever the tables have become, is the world's Store step. */
  lemma HandOverIsStore(x: World, key: GenKey, p: Prepared, f: Frame, ds: seq<OutboxDelivery>, now: int)
    requires key in x.workers && x.workers[key].phase == Bound(p.frame, set k | k in p.bindings)
    requires Lists(f.checkpoints, p.frame.checkpoints) && Addresses(ds, (set k | k in p.bindings), key.dep)
    requires f == StoreFrame(p.frame, f.checkpoints, ds)
    ensures var step := Step.Store(key, f.checkpoints, ds, now);
      && Enabled(x, step)
      && Happens(x, step).sys.db == Apply(x.sys.db, f, now).db
      && Happens(x, step).workers[key].phase
         == (match Apply(x.sys.db, f, now).reply case Ok(ack) => Answering(ack) case Err(_) => Halted)
  {
  }
}
