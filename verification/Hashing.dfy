/** The byte streams behind the two digests the system compares: HashTransactionFrame of coordinator.go and
    Fingerprint of internal/secrets/secrets.go. Digests are taken as collision free; these are the inputs they digest. */
module Hashing {
  import opened Sorting
  import opened Schema
  import opened Protocol

  // ---- Eight-byte length prefixes -------------------------------------------------------------------------

  function Power(k: nat): nat {
    if k == 0 then 1 else 256 * Power(k - 1)
  }

  function BigEndian(n: nat, k: nat): (s: seq<nat>)
    ensures |s| == k
  {
    if k == 0 then [] else BigEndian(n / 256, k - 1) + [n % 256]
  }

  lemma {:induction false} BigEndianInjective(a: nat, b: nat, k: nat)
    requires a < Power(k) && b < Power(k) && BigEndian(a, k) == BigEndian(b, k)
    ensures a == b
  {
    if k > 0 {
      var x, y := BigEndian(a, k), BigEndian(b, k);
      assert x[k - 1] == a % 256 && y[k - 1] == b % 256;
      assert x[..k - 1] == BigEndian(a / 256, k - 1) && y[..k - 1] == BigEndian(b / 256, k - 1);
      BigEndianInjective(a / 256, b / 256, k - 1);
    }
  }

  /** Bytes are written as numbers below 256. */
  function Framed(fields: seq<seq<nat>>): seq<nat> {
    if fields == [] then [] else BigEndian(|fields[0]|, 8) + fields[0] + Framed(fields[1..])
  }

  ghost predicate Sized(fields: seq<seq<nat>>) {
    forall i :: 0 <= i < |fields| ==> |fields[i]| < Power(8)
  }

  /** The length-prefixed stream determines its fields, and even how many there are. */
  lemma {:induction false} FramedInjective(a: seq<seq<nat>>, b: seq<seq<nat>>)
    requires Sized(a) && Sized(b) && Framed(a) == Framed(b)
    ensures a == b
  {
    if a != [] && b != [] {
      var s, t := Framed(a), Framed(b);
      assert s[..8] == BigEndian(|a[0]|, 8) && t[..8] == BigEndian(|b[0]|, 8);
      BigEndianInjective(|a[0]|, |b[0]|, 8);
      var n := |a[0]|;
      assert s[8..8 + n] == a[0] && t[8..8 + n] == b[0];
      assert s[8 + n..] == Framed(a[1..]) && t[8 + n..] == Framed(b[1..]);
      FramedInjective(a[1..], b[1..]);
      assert a == [a[0]] + a[1..] && b == [b[0]] + b[1..];
    }
  }

  /** The write loop of HashTransactionFrame. */
  method FrameStream(fields: seq<seq<nat>>) returns (stream: seq<nat>)
    ensures stream == Framed(fields)
  {
    stream := [];
    for i := 0 to |fields|
      invariant stream + Framed(fields[i..]) == Framed(fields)
    {
      assert fields[i..][0] == fields[i] && fields[i..][1..] == fields[i + 1..];
      stream := stream + BigEndian(|fields[i]|, 8) + fields[i];
    }
    assert fields[|fields|..] == [];
  }

  // ---- HashTransactionFrame -----------------------------------------------------------------------------------

  /** The JSON encoders of the frame's fields; empty collections are encoded like absent ones. */
  datatype Encoding = Encoding(
    text: string -> seq<nat>, number: nat -> seq<nat>, token: Token -> seq<nat>,
    sources: map<string, Json> -> seq<nat>, events: seq<WireEvent> -> seq<nat>)

  ghost predicate Injective<T(!new)>(f: T -> seq<nat>) {
    forall a, b :: f(a) == f(b) ==> a == b
  }

  ghost predicate Faithful(e: Encoding) {
    && Injective(e.text) && Injective(e.number) && Injective(e.token) && Injective(e.sources) && Injective(e.events)
  }

  function Fields(e: Encoding, f: WireFrame): seq<seq<nat>> {
    [e.text(f.dep), e.number(f.gen), e.token(f.token), e.number(f.seqno), e.number(f.base), e.text(f.next),
     e.sources(f.checkpoints), e.events(f.events)]
  }

  /** Two frames whose fields have lengths that fit in eight bytes digest the same bytes exactly when they agree
      in all eight fields. */
  lemma FrameStreamsDetermineFrames(e: Encoding, f: WireFrame, g: WireFrame)
    requires Faithful(e) && Sized(Fields(e, f)) && Sized(Fields(e, g))
    ensures Framed(Fields(e, f)) == Framed(Fields(e, g)) <==> HashFrame(f) == HashFrame(g)
  {
    if Framed(Fields(e, f)) == Framed(Fields(e, g)) {
      FramedInjective(Fields(e, f), Fields(e, g));
      assert forall i :: 0 <= i < 8 ==> Fields(e, f)[i] == Fields(e, g)[i];
      FieldsEqual(e, f, g);
    }
  }

  lemma FieldsEqual(e: Encoding, f: WireFrame, g: WireFrame)
    requires Faithful(e) && forall i :: 0 <= i < 8 ==> Fields(e, f)[i] == Fields(e, g)[i]
    ensures HashFrame(f) == HashFrame(g)
  {
    assert Fields(e, f)[0] == Fields(e, g)[0] && Fields(e, f)[1] == Fields(e, g)[1] && Fields(e, f)[2] == Fields(e, g)[2];
    assert Fields(e, f)[3] == Fields(e, g)[3] && Fields(e, f)[4] == Fields(e, g)[4] && Fields(e, f)[5] == Fields(e, g)[5];
    assert Fields(e, f)[6] == Fields(e, g)[6] && Fields(e, f)[7] == Fields(e, g)[7];
  }

  // ---- Fingerprint: decimal prefixes --------------------------------------------------------------------------------

  function Digit(d: nat): char
    requires d < 10
  {
    '0' + d as char
  }

  function Decimal(n: nat): (s: string)
    ensures s != [] && forall i :: 0 <= i < |s| ==> '0' <= s[i] <= '9'
  {
    if n < 10 then [Digit(n)] else Decimal(n / 10) + [Digit(n % 10)]
  }

  lemma DecimalLength(n: nat)
    ensures |Decimal(n)| == 1 <==> n < 10
  {
  }

  lemma {:induction false} DecimalInjective(a: nat, b: nat)
    requires Decimal(a) == Decimal(b)
    ensures a == b
  {
    var s, t := Decimal(a), Decimal(b);
    assert s[|s| - 1] == Digit(a % 10) && t[|t| - 1] == Digit(b % 10);
    DecimalLength(a);
    DecimalLength(b);
    if a >= 10 {
      assert s[..|s| - 1] == Decimal(a / 10) && t[..|t| - 1] == Decimal(b / 10);
      DecimalInjective(a / 10, b / 10);
    }
  }

  /** `%d:` and then the part itself. */
  function Prefixed(part: string): string {
    Decimal(|part|) + ":" + part
  }

  function Joined(parts: seq<string>): string {
    if parts == [] then "" else Prefixed(parts[0]) + Joined(parts[1..])
  }

  /** The first colon ends the number. */
  lemma ColonAfterDigits(a: nat, x: string)
    ensures var s := Decimal(a) + ":" + x;
      forall i :: 0 <= i <= |Decimal(a)| ==> (s[i] == ':' <==> i == |Decimal(a)|)
  {
    var s := Decimal(a) + ":" + x;
    assert forall i :: 0 <= i < |Decimal(a)| ==> s[i] == Decimal(a)[i];
  }

  /** Two numbers before a colon, whatever follows. */
  lemma DecimalSplits(a: nat, b: nat, x: string, y: string)
    requires Decimal(a) + ":" + x == Decimal(b) + ":" + y
    ensures a == b && x == y
  {
    var s, t := Decimal(a) + ":" + x, Decimal(b) + ":" + y;
    var m, n := |Decimal(a)|, |Decimal(b)|;
    ColonAfterDigits(a, x);
    ColonAfterDigits(b, y);
    assert s[m] == ':' && t[n] == ':';
    assert m == n;
    assert s[..m] == Decimal(a) && t[..n] == Decimal(b);
    DecimalInjective(a, b);
    assert s[m + 1..] == x && t[n + 1..] == y;
  }

  /** The prefixed stream determines its parts, although parts may contain digits and colons. */
  lemma {:induction false} JoinedInjective(a: seq<string>, b: seq<string>)
    requires Joined(a) == Joined(b)
    ensures a == b
  {
    if a != [] && b != [] {
      var x, y := a[0] + Joined(a[1..]), b[0] + Joined(b[1..]);
      assert Joined(a) == Decimal(|a[0]|) + ":" + x && Joined(b) == Decimal(|b[0]|) + ":" + y;
      DecimalSplits(|a[0]|, |b[0]|, x, y);
      assert x[..|a[0]|] == a[0] && y[..|a[0]|] == b[0];
      assert x[|a[0]|..] == Joined(a[1..]) && y[|a[0]|..] == Joined(b[1..]);
      JoinedInjective(a[1..], b[1..]);
      assert a == [a[0]] + a[1..] && b == [b[0]] + b[1..];
    }
  }

  // ---- Secret references ------------------------------------------------------------------------------------------

  datatype SecretRef = SecretRef(group: string, key: string, required: bool)

  datatype Secret = Secret(ref: SecretRef, value: string)

  predicate SafeChar(c: char) {
    c == '-' || 'a' <= c <= 'z' || '0' <= c <= '9'
  }

  predicate SafeComponent(s: string) {
    s != "" && forall i :: 0 <= i < |s| ==> SafeChar(s[i])
  }

  predicate ValidRef(r: SecretRef) {
    SafeComponent(r.group) && SafeComponent(r.key)
  }

  function RefKey(r: SecretRef): string {
    r.group + "/" + r.key
  }

  predicate SameRef(a: SecretRef, b: SecretRef) {
    a.group == b.group && a.key == b.key
  }

  /** A group cannot contain the separator, so the joined key names one group and one key. */
  lemma RefKeyInjective(a: SecretRef, b: SecretRef)
    requires ValidRef(a) && ValidRef(b)
    ensures RefKey(a) == RefKey(b) <==> SameRef(a, b)
  {
    if RefKey(a) == RefKey(b) {
      var s, m, n := RefKey(a), |a.group|, |b.group|;
      assert s[m] == '/' && s == RefKey(b) && RefKey(b)[n] == '/';
      assert forall i :: 0 <= i < m ==> SafeChar(a.group[i]) && s[i] == a.group[i];
      assert forall i :: 0 <= i < n ==> SafeChar(b.group[i]) && s[i] == b.group[i];
      assert m == n;
      assert s[..m] == a.group && s[..n] == b.group;
      assert s[m + 1..] == a.key && s[n + 1..] == b.key;
    }
  }

  // ---- The order of strings ---------------------------------------------------------------------------------------

  predicate Before(a: string, b: string) {
    if b == "" then false
    else if a == "" then true
    else if a[0] != b[0] then a[0] < b[0]
    else Before(a[1..], b[1..])
  }

  lemma {:induction false} BeforeAsymmetric(a: string, b: string)
    ensures !(Before(a, b) && Before(b, a))
  {
    if a != "" && b != "" {
      BeforeAsymmetric(a[1..], b[1..]);
    }
  }

  lemma {:induction false} BeforeTransitive(a: string, b: string, c: string)
    ensures Before(a, b) && Before(b, c) ==> Before(a, c)
  {
    if a != "" && b != "" && c != "" {
      BeforeTransitive(a[1..], b[1..], c[1..]);
    }
  }

  lemma {:induction false} BeforeTotal(a: string, b: string)
    ensures a == b || Before(a, b) || Before(b, a)
  {
    if a != "" && b != "" {
      BeforeTotal(a[1..], b[1..]);
      assert a == [a[0]] + a[1..] && b == [b[0]] + b[1..];
    }
  }

  function ByRef(): (Secret, Secret) -> bool {
    (a: Secret, b: Secret) => Before(RefKey(a.ref), RefKey(b.ref))
  }

  function ByKey(): (SecretRef, SecretRef) -> bool {
    (a: SecretRef, b: SecretRef) => Before(RefKey(a), RefKey(b))
  }

  lemma RefOrder()
    ensures StrictOrder(ByRef()) && StrictOrder(ByKey())
  {
    forall a: Secret, b: Secret | ByRef()(a, b) ensures !ByRef()(b, a) {
      BeforeAsymmetric(RefKey(a.ref), RefKey(b.ref));
    }
    forall a: Secret, b: Secret, c: Secret | ByRef()(a, b) && ByRef()(b, c) ensures ByRef()(a, c) {
      BeforeTransitive(RefKey(a.ref), RefKey(b.ref), RefKey(c.ref));
    }
    forall a: SecretRef, b: SecretRef | ByKey()(a, b) ensures !ByKey()(b, a) {
      BeforeAsymmetric(RefKey(a), RefKey(b));
    }
    forall a: SecretRef, b: SecretRef, c: SecretRef | ByKey()(a, b) && ByKey()(b, c) ensures ByKey()(a, c) {
      BeforeTransitive(RefKey(a), RefKey(b), RefKey(c));
    }
  }

  // ---- Fingerprint --------------------------------------------------------------------------------------------------

  function PartsOf(v: Secret): seq<string> {
    [v.ref.group, v.ref.key, v.value]
  }

  function Parts(values: seq<Secret>): seq<string> {
    if values == [] then [] else PartsOf(values[0]) + Parts(values[1..])
  }

  function FingerprintStream(values: seq<Secret>): string {
    Joined(Parts(Sort(ByRef(), values)))
  }

  /** What a fingerprint is meant to identify. */
  function Triples(values: seq<Secret>): set<(string, string, string)> {
    set v | v in values :: (v.ref.group, v.ref.key, v.value)
  }

  /** Normalize leaves valid references, each once. */
  ghost predicate Normalized(values: seq<Secret>) {
    && (forall v :: v in values ==> ValidRef(v.ref))
    && (forall i, j :: 0 <= i < j < |values| ==> !SameRef(values[i].ref, values[j].ref))
  }

  lemma {:induction false} PartsInjective(a: seq<Secret>, b: seq<Secret>)
    requires Parts(a) == Parts(b)
    ensures |a| == |b| && forall i :: 0 <= i < |a| ==> PartsOf(a[i]) == PartsOf(b[i])
  {
    if a != [] && b != [] {
      var s, t := Parts(a), Parts(b);
      assert s[..3] == PartsOf(a[0]) && t[..3] == PartsOf(b[0]);
      assert s[3..] == Parts(a[1..]) && t[3..] == Parts(b[1..]);
      PartsInjective(a[1..], b[1..]);
      forall i | 0 <= i < |a| ensures PartsOf(a[i]) == PartsOf(b[i]) {
        assert i > 0 ==> a[i] == a[1..][i - 1] && b[i] == b[1..][i - 1];
      }
    }
  }

  lemma TriplesOfSorted(values: seq<Secret>)
    ensures Triples(Sort(ByRef(), values)) == Triples(values)
  {
    SortBag(ByRef(), values);
    assert forall v :: v in values <==> v in multiset(values);
    assert forall v :: v in Sort(ByRef(), values) <==> v in multiset(Sort(ByRef(), values));
  }

  lemma EqualPartsEqualTriples(a: seq<Secret>, b: seq<Secret>)
    requires |a| == |b| && forall i :: 0 <= i < |a| ==> PartsOf(a[i]) == PartsOf(b[i])
    ensures Triples(a) <= Triples(b)
  {
    forall t | t in Triples(a) ensures t in Triples(b) {
      var i :| 0 <= i < |a| && (a[i].ref.group, a[i].ref.key, a[i].value) == t;
      assert PartsOf(a[i])[0] == PartsOf(b[i])[0] && PartsOf(a[i])[1] == PartsOf(b[i])[1] && PartsOf(a[i])[2] == PartsOf(b[i])[2];
      assert b[i] in b;
    }
  }

  lemma NormalizedComparable(values: seq<Secret>)
    requires Normalized(values)
    ensures Comparable(ByRef(), values)
  {
    forall i, j | 0 <= i < j < |values| ensures ByRef()(values[i], values[j]) || ByRef()(values[j], values[i]) {
      RefKeyInjective(values[i].ref, values[j].ref);
      BeforeTotal(RefKey(values[i].ref), RefKey(values[j].ref));
    }
  }

  /** Two ascending lists of the same triples run in step. */
  lemma {:induction false} AscendingTriples(a: seq<Secret>, b: seq<Secret>)
    requires Ascending(ByRef(), a) && Ascending(ByRef(), b) && Triples(a) == Triples(b)
    ensures Parts(a) == Parts(b)
  {
    if a != [] {
      TripleOf(a, 0);
      var i: nat :| i < |b| && PartsOf(b[i]) == PartsOf(a[0]);
      TripleOf(b, 0);
      var j: nat :| j < |a| && PartsOf(a[j]) == PartsOf(b[0]);
      FirstTriple(a, b, i, j);
      TailTriples(a, b);
      AscendingTriples(a[1..], b[1..]);
    } else if b != [] {
      TripleOf(b, 0);
    }
  }

  lemma TripleOf(a: seq<Secret>, i: nat)
    requires i < |a|
    ensures forall b: seq<Secret> :: Triples(a) == Triples(b) ==> exists j: nat :: j < |b| && PartsOf(b[j]) == PartsOf(a[i])
  {
    var t := (a[i].ref.group, a[i].ref.key, a[i].value);
    assert t in Triples(a);
    forall b: seq<Secret> | Triples(a) == Triples(b) ensures exists j: nat :: j < |b| && PartsOf(b[j]) == PartsOf(a[i]) {
      var v :| v in b && (v.ref.group, v.ref.key, v.value) == t;
      var j: nat :| j < |b| && b[j] == v;
      assert PartsOf(b[j]) == PartsOf(a[i]);
    }
  }

  lemma PartsKey(v: Secret, u: Secret)
    requires PartsOf(v) == PartsOf(u)
    ensures RefKey(v.ref) == RefKey(u.ref) && v.ref.group == u.ref.group && v.ref.key == u.ref.key && v.value == u.value
  {
    assert PartsOf(v)[0] == PartsOf(u)[0] && PartsOf(v)[1] == PartsOf(u)[1] && PartsOf(v)[2] == PartsOf(u)[2];
  }

  lemma FirstTriple(a: seq<Secret>, b: seq<Secret>, i: nat, j: nat)
    requires Ascending(ByRef(), a) && Ascending(ByRef(), b) && i < |b| && j < |a|
    requires PartsOf(b[i]) == PartsOf(a[0]) && PartsOf(a[j]) == PartsOf(b[0])
    ensures PartsOf(a[0]) == PartsOf(b[0])
  {
    PartsKey(b[i], a[0]);
    PartsKey(a[j], b[0]);
    BeforeAsymmetric(RefKey(a[0].ref), RefKey(b[0].ref));
    assert i > 0 ==> ByRef()(b[0], b[i]);
    assert j > 0 ==> ByRef()(a[0], a[j]);
  }

  lemma TailTriples(a: seq<Secret>, b: seq<Secret>)
    requires Ascending(ByRef(), a) && Ascending(ByRef(), b) && Triples(a) == Triples(b)
    requires a != [] && b != [] && PartsOf(a[0]) == PartsOf(b[0])
    ensures Triples(a[1..]) == Triples(b[1..])
  {
    TailTriple(a);
    TailTriple(b);
    PartsKey(a[0], b[0]);
  }

  lemma TailTriple(a: seq<Secret>)
    requires Ascending(ByRef(), a) && a != []
    ensures Triples(a[1..]) == Triples(a) - {(a[0].ref.group, a[0].ref.key, a[0].value)}
  {
    var t := (a[0].ref.group, a[0].ref.key, a[0].value);
    assert a == [a[0]] + a[1..];
    forall v | v in a[1..] ensures (v.ref.group, v.ref.key, v.value) != t {
      var i :| 0 < i < |a| && a[i] == v;
      assert ByRef()(a[0], a[i]);
      BeforeAsymmetric(RefKey(a[0].ref), RefKey(v.ref));
    }
  }

  /** The digested stream identifies the set of (group, key, value) triples: whatever order the values come in,
      and whatever text they hold. */
  lemma FingerprintIdentifies(a: seq<Secret>, b: seq<Secret>)
    requires Normalized(a) && Normalized(b)
    ensures FingerprintStream(a) == FingerprintStream(b) <==> Triples(a) == Triples(b)
  {
    var s, t := Sort(ByRef(), a), Sort(ByRef(), b);
    TriplesOfSorted(a);
    TriplesOfSorted(b);
    if FingerprintStream(a) == FingerprintStream(b) {
      JoinedInjective(Parts(s), Parts(t));
      PartsInjective(s, t);
      EqualPartsEqualTriples(s, t);
      EqualPartsEqualTriples(t, s);
    }
    if Triples(a) == Triples(b) {
      RefOrder();
      NormalizedComparable(a);
      NormalizedComparable(b);
      SortAscending(ByRef(), a);
      SortAscending(ByRef(), b);
      AscendingTriples(s, t);
    }
  }

  lemma {:induction false} JoinedAppend(a: seq<string>, b: seq<string>)
    ensures Joined(a + b) == Joined(a) + Joined(b)
  {
    if a == [] {
      assert a + b == b;
    } else {
      assert (a + b)[1..] == a[1..] + b;
      JoinedAppend(a[1..], b);
    }
  }

  lemma {:induction false} PartsStep(values: seq<Secret>, i: nat)
    requires i < |values|
    ensures Parts(values[..i + 1]) == Parts(values[..i]) + PartsOf(values[i])
  {
    if i == 0 {
      assert values[..1] == [values[0]] && values[..0] == [];
      assert Parts([values[0]]) == PartsOf(values[0]) + Parts([]);
    } else {
      PartsStep(values[1..], i - 1);
      assert values[..i + 1][1..] == values[1..][..i] && values[..i][1..] == values[1..][..i - 1];
      assert values[1..][i - 1] == values[i];
    }
  }

  /** The inner write loop of Fingerprint. */
  method WriteParts(before: string, parts: seq<string>) returns (stream: string)
    ensures stream == before + Joined(parts)
  {
    stream := before;
    for j := 0 to |parts|
      invariant stream == before + Joined(parts[..j])
    {
      JoinedStep(before, parts, j);
      stream := stream + Prefixed(parts[j]);
    }
    assert parts[..|parts|] == parts;
  }

  lemma JoinedStep(before: string, parts: seq<string>, j: nat)
    requires j < |parts|
    ensures before + Joined(parts[..j + 1]) == before + Joined(parts[..j]) + Prefixed(parts[j])
  {
    assert parts[..j + 1] == parts[..j] + [parts[j]];
    JoinedAppend(parts[..j], [parts[j]]);
    assert [parts[j]][1..] == [];
    assert Joined([parts[j]]) == Prefixed(parts[j]) + "" == Prefixed(parts[j]);
  }

  /** Fingerprint up to its digest. */
  method WriteFingerprint(values: seq<Secret>) returns (stream: string)
    ensures stream == FingerprintStream(values)
  {
    var ordered := Sort(ByRef(), values);
    stream := "";
    for i := 0 to |ordered|
      invariant stream == Joined(Parts(ordered[..i]))
    {
      stream := WriteParts(stream, PartsOf(ordered[i]));
      PartsStep(ordered, i);
      JoinedAppend(Parts(ordered[..i]), PartsOf(ordered[i]));
    }
    assert ordered[..|ordered|] == ordered;
  }

  // ---- Normalize ------------------------------------------------------------------------------------------------------

  /** Some reference to the same secret demands it. */
  ghost predicate Demanded(refs: seq<SecretRef>, r: SecretRef) {
    exists q :: q in refs && SameRef(q, r) && q.required
  }

  ghost predicate Mentioned(refs: seq<SecretRef>, r: SecretRef) {
    exists q :: q in refs && SameRef(q, r)
  }

  /** References in key order, each secret once, required exactly when some input required it. */
  ghost predicate NormalForm(refs: seq<SecretRef>, out: seq<SecretRef>) {
    && Ascending(ByKey(), out)
    && (forall r :: r in out ==> ValidRef(r) && Mentioned(refs, r) && (r.required <==> Demanded(refs, r)))
    && (forall q :: q in refs ==> exists r :: r in out && SameRef(q, r))
  }

  /** A row of the map stands for every mention of its secret so far. */
  ghost predicate Stands(refs: seq<SecretRef>, k: string, row: SecretRef) {
    RefKey(row) == k && ValidRef(row) && Mentioned(refs, row) && (row.required <==> Demanded(refs, row))
  }

  ghost predicate Merges(refs: seq<SecretRef>, merged: map<string, SecretRef>) {
    && (forall k :: k in merged ==> Stands(refs, k, merged[k]))
    && (forall r :: r in refs ==> RefKey(r) in merged)
  }

  lemma OtherRow(refs: seq<SecretRef>, r: SecretRef, k: string, row: SecretRef)
    requires Stands(refs, k, row) && ValidRef(r) && RefKey(r) != k
    ensures Stands(refs + [r], k, row)
  {
    var all := refs + [r];
    RefKeyInjective(row, r);
    assert forall q :: q in all <==> q in refs || q == r;
  }

  lemma MergedRow(refs: seq<SecretRef>, r: SecretRef, row: SecretRef)
    requires Stands(refs, RefKey(r), row) && ValidRef(r)
    ensures Stands(refs + [r], RefKey(r), r.(required := r.required || row.required))
  {
    var all := refs + [r];
    RefKeyInjective(row, r);
    assert forall q :: q in all <==> q in refs || q == r;
    assert r in all && SameRef(r, r.(required := r.required || row.required));
  }

  lemma FirstRow(refs: seq<SecretRef>, r: SecretRef)
    requires ValidRef(r) && forall q :: q in refs ==> RefKey(q) != RefKey(r)
    ensures Stands(refs + [r], RefKey(r), r)
  {
    var all := refs + [r];
    assert forall q :: q in all <==> q in refs || q == r;
    assert r in all && SameRef(r, r);
  }

  lemma MergeOne(refs: seq<SecretRef>, merged: map<string, SecretRef>, r: SecretRef, row: SecretRef)
    requires Merges(refs, merged) && ValidRef(r)
    requires row == if RefKey(r) in merged then r.(required := r.required || merged[RefKey(r)].required) else r
    ensures Merges(refs + [r], merged[RefKey(r) := row])
  {
    var key := RefKey(r);
    var after := merged[key := row];
    forall k | k in after ensures Stands(refs + [r], k, after[k]) {
      if k != key {
        OtherRow(refs, r, k, merged[k]);
      } else if key in merged {
        MergedRow(refs, r, merged[key]);
      } else {
        FirstRow(refs, r);
      }
    }
  }

  /** The merging loop of Normalize. */
  method Merge(refs: seq<SecretRef>) returns (merged: map<string, SecretRef>, malformed: bool)
    ensures malformed <==> exists r :: r in refs && !ValidRef(r)
    ensures !malformed ==> Merges(refs, merged)
  {
    merged, malformed := map[], false;
    for i := 0 to |refs|
      invariant !malformed
      invariant forall q :: q in refs[..i] ==> ValidRef(q)
      invariant Merges(refs[..i], merged)
    {
      var r := refs[i];
      if !ValidRef(r) {
        malformed := true;
        return;
      }
      var row := r;
      if RefKey(r) in merged {
        row := r.(required := r.required || merged[RefKey(r)].required);
      }
      MergeOne(refs[..i], merged, r, row);
      merged := merged[RefKey(r) := row];
      assert refs[..i + 1] == refs[..i] + [r];
    }
    assert refs[..|refs|] == refs;
  }

  /** A group or key that is empty or holds anything but lower-case letters, digits and dashes. */
  ghost predicate Unsafe(s: string) {
    s == "" || exists i :: 0 <= i < |s| && s[i] != '-' && !('a' <= s[i] <= 'z') && !('0' <= s[i] <= '9')
  }

  lemma UnsafeRefs(refs: seq<SecretRef>)
    ensures (exists r :: r in refs && !ValidRef(r)) <==> exists r :: r in refs && (Unsafe(r.group) || Unsafe(r.key))
  {
    forall r: SecretRef ensures ValidRef(r) <==> !(Unsafe(r.group) || Unsafe(r.key)) {
    }
  }

  /** Normalize: nothing when some reference is malformed, otherwise the normal form of the references. */
  method Normalize(refs: seq<SecretRef>) returns (result: Option<seq<SecretRef>>)
    ensures result.None? <==> exists r :: r in refs && (Unsafe(r.group) || Unsafe(r.key))
    ensures result.Some? ==> NormalForm(refs, result.value)
  {
    UnsafeRefs(refs);
    var merged, malformed := Merge(refs);
    if malformed {
      return None;
    }
    var out := Collect(merged);
    NormalSort(refs, merged, out);
    result := Some(Sort(ByKey(), out));
  }

  /** Rows in the unspecified order in which a map is walked. */
  ghost predicate Rows(merged: map<string, SecretRef>, out: seq<SecretRef>) {
    && (forall r :: r in out ==> RefKey(r) in merged && merged[RefKey(r)] == r)
    && (forall k :: k in merged ==> merged[k] in out)
    && (forall i, j :: 0 <= i < j < |out| ==> RefKey(out[i]) != RefKey(out[j]))
  }

  method Collect(merged: map<string, SecretRef>) returns (out: seq<SecretRef>)
    requires forall k :: k in merged ==> RefKey(merged[k]) == k
    ensures Rows(merged, out)
  {
    out := [];
    var keys := merged.Keys;
    while keys != {}
      invariant keys <= merged.Keys
      invariant forall r :: r in out ==> RefKey(r) in merged && RefKey(r) !in keys && merged[RefKey(r)] == r
      invariant forall k :: k in merged && k !in keys ==> merged[k] in out
      invariant forall i, j :: 0 <= i < j < |out| ==> RefKey(out[i]) != RefKey(out[j])
      decreases |keys|
    {
      var k :| k in keys;
      keys := keys - {k};
      out := out + [merged[k]];
    }
  }

  lemma NormalSort(refs: seq<SecretRef>, merged: map<string, SecretRef>, out: seq<SecretRef>)
    requires Merges(refs, merged) && Rows(merged, out) && forall q :: q in refs ==> ValidRef(q)
    ensures NormalForm(refs, Sort(ByKey(), out))
  {
    var sorted := Sort(ByKey(), out);
    RefOrder();
    forall i, j | 0 <= i < j < |out| ensures ByKey()(out[i], out[j]) || ByKey()(out[j], out[i]) {
      BeforeTotal(RefKey(out[i]), RefKey(out[j]));
    }
    SortAscending(ByKey(), out);
    SortBag(ByKey(), out);
    assert forall r :: r in sorted <==> r in multiset(sorted);
    assert forall r :: r in out <==> r in multiset(out);
    forall q | q in refs ensures exists r :: r in sorted && SameRef(q, r) {
      var r := merged[RefKey(q)];
      RefKeyInjective(q, r);
      assert r in sorted;
    }
  }
}
