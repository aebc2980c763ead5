// The open-addressing MAP whose put, grow, has, get and FOR IN code the LLVM
// generator emits inline, for NUM keys.
module MapTable {
  import opened Options
  import opened Arith

  // A bucket; its key and value are read only when is_occupied is set.
  datatype Bucket<+V> = Free | Used(key: int, val: V)

  const TWO64 := 0x1_0000_0000_0000_0000
  const TWO63 := 0x8000_0000_0000_0000
  const INITIAL_CAP := 8

  // An i64 key.
  predicate IsKey(k: int) { -TWO63 <= k < TWO63 }

  // urem of the key's bits by the capacity.
  function Home(k: int, cap: nat): (h: nat)
    requires IsKey(k) && 0 < cap
    ensures h < cap
  {
    (if k < 0 then k + TWO64 else k) % cap
  }

  // The bucket j probes after position h, j less than the capacity.
  ghost function Step(h: nat, j: nat, cap: nat): nat {
    if h + j < cap then h + j else h + j - cap
  }

  // How many probes lead from home h to bucket b.
  ghost function Dist(h: nat, b: nat, cap: nat): int {
    if h <= b then b - h else b + cap - h
  }

  lemma StepDist(h: nat, b: nat, cap: nat)
    requires h < cap && b < cap
    ensures 0 <= Dist(h, b, cap) < cap && Step(h, Dist(h, b, cap), cap) == b
  {
  }

  // ── The table as a sequence of buckets ──

  ghost predicate KeysOk<V>(t: seq<Bucket<V>>) {
    forall b :: 0 <= b < |t| && t[b].Used? ==> IsKey(t[b].key)
  }

  ghost predicate Unique<V>(t: seq<Bucket<V>>) {
    forall a, b :: 0 <= a < |t| && 0 <= b < |t| && t[a].Used? && t[b].Used? && t[a].key == t[b].key ==> a == b
  }

  // The first n probes for key k find other keys.
  ghost predicate Passes<V>(t: seq<Bucket<V>>, k: int, n: int)
    requires IsKey(k) && 0 < |t|
  {
    forall j :: 0 <= j < n && j < |t| ==>
      var b := Step(Home(k, |t|), j, |t|);
      b < |t| && t[b].Used? && t[b].key != k
  }

  // No empty bucket lies between a key's home and its bucket.
  ghost predicate Probing<V>(t: seq<Bucket<V>>)
    requires 0 < |t| && KeysOk(t)
  {
    forall b :: 0 <= b < |t| && t[b].Used? ==> Passes(t, t[b].key, Dist(Home(t[b].key, |t|), b, |t|))
  }

  ghost predicate TableOk<V>(t: seq<Bucket<V>>) {
    0 < |t| && KeysOk(t) && Unique(t) && Probing(t)
  }

  ghost function Count<V>(t: seq<Bucket<V>>): (n: nat)
    ensures n <= |t|
  {
    if t == [] then 0 else Count(t[..|t| - 1]) + (if t[|t| - 1].Used? then 1 else 0)
  }

  // The mathematical map a run of buckets stands for.
  ghost function Model<V>(t: seq<Bucket<V>>): map<int, V> {
    if t == [] then map[]
    else
      var m := Model(t[..|t| - 1]);
      match t[|t| - 1]
      case Free => m
      case Used(k, v) => m[k := v]
  }

  ghost predicate Holds<V>(t: seq<Bucket<V>>, k: int) {
    exists b :: 0 <= b < |t| && t[b].Used? && t[b].key == k
  }

  lemma {:induction false} ModelDomain<V>(t: seq<Bucket<V>>, k: int)
    ensures k in Model(t) <==> Holds(t, k)
  {
    if t != [] {
      var last := |t| - 1;
      ModelDomain(t[..last], k);
      if Holds(t[..last], k) {
        var b :| 0 <= b < last && t[..last][b].Used? && t[..last][b].key == k;
        assert t[b].key == k;
      }
    }
  }

  lemma {:induction false} ModelAt<V>(t: seq<Bucket<V>>, b: nat)
    requires Unique(t) && b < |t| && t[b].Used?
    ensures t[b].key in Model(t) && Model(t)[t[b].key] == t[b].val
  {
    var last := |t| - 1;
    if b < last {
      assert Unique(t[..last]);
      ModelAt(t[..last], b);
      assert t[last].Used? ==> t[last].key != t[b].key;
    }
  }

  // Writing a key into its bucket updates the map at that key only.
  lemma ModelWrite<V>(t: seq<Bucket<V>>, s: nat, k: int, v: V)
    requires s < |t| && Unique(t) && Unique(t[s := Used(k, v)])
    requires t[s] == Free || t[s].key == k
    ensures Model(t[s := Used(k, v)]) == Model(t)[k := v]
  {
    var t' := t[s := Used(k, v)];
    ModelAt(t', s);
    forall x
      ensures x in Model(t') <==> x in Model(t)[k := v]
    {
      ModelDomain(t, x);
      ModelDomain(t', x);
      if Holds(t, x) {
        var b :| 0 <= b < |t| && t[b].Used? && t[b].key == x;
        if x != k { assert t'[b].key == x; }
      }
      if Holds(t', x) {
        var b :| 0 <= b < |t'| && t'[b].Used? && t'[b].key == x;
        if x != k { assert t[b].key == x; }
      }
    }
    forall x | x in Model(t') && x != k
      ensures Model(t')[x] == Model(t)[x]
    {
      ModelDomain(t', x);
      var b :| 0 <= b < |t'| && t'[b].Used? && t'[b].key == x;
      ModelAt(t', b);
      ModelAt(t, b);
    }
  }

  lemma {:induction false} CountWrite<V>(t: seq<Bucket<V>>, s: nat, b: Bucket<V>)
    requires s < |t| && b.Used?
    ensures Count(t[s := b]) == Count(t) + (if t[s].Used? then 0 else 1)
  {
    var last := |t| - 1;
    if s == last {
      assert t[s := b][..last] == t[..last];
    } else {
      CountWrite(t[..last], s, b);
      assert t[s := b][..last] == t[..last][s := b];
    }
  }

  lemma {:induction false} SomeFree<V>(t: seq<Bucket<V>>) returns (e: nat)
    requires Count(t) < |t|
    ensures e < |t| && t[e] == Free
  {
    var last := |t| - 1;
    if t[last] == Free { return last; }
    e := SomeFree(t[..last]);
  }

  // Where a put of key k writes: the first probe that is empty or holds k.
  ghost predicate IsSlot<V>(t: seq<Bucket<V>>, k: int, s: nat)
    requires IsKey(k) && 0 < |t|
  {
    s < |t| && (t[s] == Free || t[s].key == k) && Passes(t, k, Dist(Home(k, |t|), s, |t|))
  }

  // An empty slot on a key's probe path means the key is nowhere in the table.
  lemma FreeSlotMeansAbsent<V>(t: seq<Bucket<V>>, k: int, s: nat)
    requires TableOk(t) && IsKey(k) && IsSlot(t, k, s) && t[s] == Free
    ensures !Holds(t, k)
  {
    if Holds(t, k) {
      var b :| 0 <= b < |t| && t[b].Used? && t[b].key == k;
      var h := Home(k, |t|);
      StepDist(h, b, |t|);
      StepDist(h, s, |t|);
    }
  }

  // Writing into the slot keeps the linear-probing invariant.
  lemma WriteKeepsTable<V>(t: seq<Bucket<V>>, k: int, v: V, s: nat)
    requires TableOk(t) && IsKey(k) && IsSlot(t, k, s)
    ensures TableOk(t[s := Used(k, v)])
  {
    var t' := t[s := Used(k, v)];
    if t[s] == Free { FreeSlotMeansAbsent(t, k, s); }
    forall a, b | 0 <= a < |t'| && 0 <= b < |t'| && t'[a].Used? && t'[b].Used? && t'[a].key == t'[b].key
      ensures a == b
    {
      if t[s] == Free { assert forall c :: 0 <= c < |t| && t[c].Used? ==> t[c].key != k; }
    }
    var n := |t|;
    forall b | 0 <= b < n && t'[b].Used?
      ensures Passes(t', t'[b].key, Dist(Home(t'[b].key, n), b, n))
    {
      var x := t'[b].key;
      forall j | 0 <= j < Dist(Home(x, n), b, n) && j < n
        ensures Step(Home(x, n), j, n) < n && t'[Step(Home(x, n), j, n)].Used? && t'[Step(Home(x, n), j, n)].key != x
      {
        var p := Step(Home(x, n), j, n);
        StepDist(Home(x, n), b, n);
        assert p != b;
      }
    }
  }

  lemma NextStep(h: nat, j: nat, cap: nat)
    requires h < cap && j < cap
    ensures (Step(h, j, cap) + 1) % cap == if j + 1 < cap then Step(h, j + 1, cap) else h
    ensures Dist(h, Step(h, j, cap), cap) == j
  {
  }

  // A binding survives a growth exactly when its bucket is among the first n.
  lemma GrowthKeepsExactly<V>(t: seq<Bucket<V>>, b: nat, n: nat)
    requires Unique(t) && b < |t| && t[b].Used? && n <= |t|
    ensures t[b].key in Model(t[..n]) <==> b < n
    ensures b < n ==> Model(t[..n])[t[b].key] == t[b].val
  {
    ModelDomain(t[..n], t[b].key);
    if b < n {
      assert t[..n][b] == t[b];
      assert Unique(t[..n]);
      ModelAt(t[..n], b);
    }
  }

  // 8, 16, 32, ...
  ghost predicate Doubled(n: nat) { n == 8 || (8 < n && n % 2 == 0 && Doubled(n / 2)) }

  lemma {:induction false} DoubledFour(n: nat)
    requires Doubled(n)
    ensures 8 <= n && n % 4 == 0
    ensures Doubled(2 * n)
  {
    if n > 8 { DoubledFour(n / 2); }
  }

  lemma {:induction false} DoubledGap(n: nat, m: nat)
    requires Doubled(n) && Doubled(m) && n < m
    ensures 2 * n <= m
    decreases m
  {
    DoubledFour(n);
    if n == 8 { DoubledFour(m / 2); } else { DoubledGap(n / 2, m / 2); }
  }

  lemma {:induction false} DoubledDivides(n: nat, m: nat) returns (q: nat)
    requires Doubled(n) && Doubled(m) && n <= m
    ensures m == q * n
    decreases m
  {
    q := 1;
    if n < m {
      DoubledGap(n, m);
      DoubledFour(n);
      var h := DoubledDivides(n, m / 2);
      q := 2 * h;
      TwiceProduct(h, n, m / 2);
    }
  }

  lemma TwiceProduct(q: nat, n: nat, m: nat)
    requires m == q * n
    ensures 2 * m == (2 * q) * n
  {
  }

  lemma Times256(n: nat)
    requires Doubled(n)
    ensures Doubled(256 * n)
  {
    hide Doubled;
    DoubledFour(n);
    DoubledFour(2 * n);
    DoubledFour(4 * n);
    DoubledFour(8 * n);
    DoubledFour(16 * n);
    DoubledFour(32 * n);
    DoubledFour(64 * n);
    DoubledFour(128 * n);
  }

  lemma Doubled64()
    ensures Doubled(TWO64)
  {
    assert Doubled(8) && Doubled(16) && Doubled(32) && Doubled(64) && Doubled(128) && Doubled(256);
    hide Doubled;
    Times256(0x100);
    Times256(0x1_0000);
    Times256(0x100_0000);
    Times256(0x1_0000_0000);
    Times256(0x100_0000_0000);
    Times256(0x1_0000_0000_0000);
    Times256(0x100_0000_0000_0000);
  }

  // A key's home is the remainder of the key itself, whatever its sign.
  lemma HomeIs(k: int, cap: nat)
    requires IsKey(k) && Doubled(cap) && cap <= TWO64
    ensures 0 < cap && Home(k, cap) < cap && (k - Home(k, cap)) % cap == 0
  {
    hide Doubled;
    DoubledFour(cap);
    Doubled64();
    var u := DoubledDivides(cap, TWO64);
    var x := if k < 0 then k + TWO64 else k;
    var q := x / cap;
    HomeMultiple(k, x, cap, q, u);
    DivModUnique(k - Home(k, cap), if k < 0 then q - u else q, cap, 0);
  }

  lemma HomeMultiple(k: int, x: int, cap: nat, q: int, u: int)
    requires 0 < cap && IsKey(k) && x == (if k < 0 then k + TWO64 else k) && q == x / cap && TWO64 == u * cap
    ensures k - Home(k, cap) == (if k < 0 then q - u else q) * cap
  {
    assert (q - u) * cap == q * cap - u * cap;
  }

  // The emitted test, and what one more entry needs.
  lemma LoadTest(len: nat, cap: nat)
    requires cap % 4 == 0
    ensures len >= cap * 3 / 4 <==> 4 * len >= 3 * cap
    ensures 4 * len < 3 * cap ==> 4 * (len + 1) <= 3 * cap
  {
    assert cap == 4 * (cap / 4);
  }

  class Table<V> {
    var buckets: array<Bucket<V>>
    var len: nat

    ghost predicate Valid()
      reads this, buckets
    {
      && Doubled(buckets.Length)
      && TableOk(buckets[..])
      && Count(buckets[..]) <= len && 4 * len <= 3 * buckets.Length
    }

    ghost function Contents(): map<int, V>
      reads this, buckets
    {
      Model(buckets[..])
    }

    constructor ()
      ensures Valid() && fresh(buckets) && Contents() == map[] && len == 0
      ensures buckets[..] == seq(INITIAL_CAP, _ => Free)
    {
      buckets := new Bucket<V>[INITIAL_CAP](_ => Free);
      len := 0;
      new;
      AllFree(buckets[..]);
    }

    method Has(k: int) returns (found: bool)
      requires Valid() && IsKey(k)
      ensures found <==> k in Contents()
    {
      DoubledFour(buckets.Length);
      var s := Probe(buckets, k);
      ModelDomain(buckets[..], k);
      if buckets[s] == Free { FreeSlotMeansAbsent(buckets[..], k, s); }
      found := buckets[s].Used?;
    }

    // GET: an Option, by has and then a probe that assumes the key is there.
    method Get(k: int) returns (r: Option<V>)
      requires Valid() && IsKey(k)
      ensures r == if k in Contents() then Some(Contents()[k]) else None
    {
      DoubledFour(buckets.Length);
      var found := Has(k);
      if found {
        var s := Probe(buckets, k);
        ModelDomain(buckets[..], k);
        if buckets[s] == Free { FreeSlotMeansAbsent(buckets[..], k, s); }
        ModelAt(buckets[..], s);
        r := Some(buckets[s].val);
      } else {
        r := None;
      }
    }

    // PUT. Without a growth the table changes in one bucket; with one, only the
    // bindings in the first len buckets are carried over. len counts every put.
    method Put(k: int, v: V) returns (ghost slot: nat)
      requires Valid() && IsKey(k)
      modifies this, buckets
      ensures Valid() && len == old(len) + 1
      ensures 4 * old(len) < 3 * old(buckets.Length) ==>
        && buckets == old(buckets) && IsSlot(old(buckets[..]), k, slot)
        && buckets[..] == old(buckets[..])[slot := Used(k, v)]
        && Contents() == old(Contents())[k := v]
      ensures 4 * old(len) >= 3 * old(buckets.Length) ==>
        && fresh(buckets) && buckets.Length == 2 * old(buckets.Length)
        && Contents() == Model(old(buckets[..])[..old(len)])[k := v]
    {
      hide Doubled, TableOk, Model, Count, IsSlot;
      DoubledFour(buckets.Length);
      LoadTest(len, buckets.Length);
      if len >= buckets.Length * 3 / 4 {
        Grow();
      }
      slot := PutProbed(k, v);
    }

    method PutProbed(k: int, v: V) returns (ghost slot: nat)
      requires Valid() && IsKey(k) && 4 * len < 3 * buckets.Length
      modifies this`len, buckets
      ensures Valid() && len == old(len) + 1 && buckets == old(buckets)
      ensures IsSlot(old(buckets[..]), k, slot) && buckets[..] == old(buckets[..])[slot := Used(k, v)]
      ensures Contents() == old(Contents())[k := v]
    {
      hide Doubled, Model, Count, Passes;
      DoubledFour(buckets.Length);
      LoadTest(len, buckets.Length);
      ghost var t := buckets[..];
      var s := Probe(buckets, k);
      WriteKeepsTable(t, k, v, s);
      CountWrite(t, s, Used(k, v));
      ModelWrite(t, s, k, v);
      buckets[s] := Used(k, v);
      assert buckets[..] == t[s := Used(k, v)];
      len := len + 1;
      slot := s;
    }

    // Twice the buckets; re-inserts what the first len old buckets hold.
    method Grow()
      requires Valid()
      modifies this`buckets
      ensures Valid() && 4 * len < 3 * buckets.Length && fresh(buckets) && buckets.Length == 2 * old(buckets.Length)
      ensures Contents() == Model(old(buckets[..])[..len])
    {
      DoubledFour(buckets.Length);
      var fresh' := new Bucket<V>[2 * buckets.Length](_ => Free);
      ghost var t := buckets[..];
      AllFree(fresh'[..]);
      var i := 0;
      while i < len
        invariant 0 <= i <= len && fresh(fresh') && fresh'.Length == 2 * buckets.Length && buckets[..] == t
        invariant TableOk(fresh'[..]) && Count(fresh'[..]) <= i
        invariant Model(fresh'[..]) == Model(t[..i])
      {
        assert t[..i + 1][..i] == t[..i];
        if buckets[i].Used? {
          Reinsert(fresh', buckets[i].key, buckets[i].val, t, i);
        }
        i := i + 1;
      }
      buckets := fresh';
    }

    // One turn of FOR IN's condition: skip empty buckets, hand out the next value.
    method Next(idx: nat) returns (done: bool, val: Option<V>, idx': nat)
      requires Valid() && idx <= buckets.Length
      ensures idx <= idx' <= buckets.Length
      ensures done ==> val == None && idx' == buckets.Length && forall b :: idx <= b < buckets.Length ==>
        buckets[b] == Free
      ensures !done ==> idx < idx' && buckets[idx' - 1].Used? && val == Some(buckets[idx' - 1].val)
      ensures !done ==> forall b :: idx <= b < idx' - 1 ==> buckets[b] == Free
    {
      done, val, idx' := true, None, idx;
      while idx' < buckets.Length
        invariant idx <= idx' <= buckets.Length
        invariant forall b :: idx <= b < idx' ==> buckets[b] == Free
      {
        if buckets[idx'].Used? {
          return false, Some(buckets[idx'].val), idx' + 1;
        }
        idx' := idx' + 1;
      }
    }

    // FOR IN with a body that leaves the map alone.
    method ForIn() returns (visited: seq<V>)
      requires Valid()
      ensures visited == Values(buckets[..])
    {
      visited := [];
      ghost var t := buckets[..];
      var idx := 0;
      var done, val, next := Next(idx);
      while !done
        invariant idx <= buckets.Length && visited == Values(t[..idx])
        invariant idx <= next <= buckets.Length
        invariant done ==> val == None && forall b :: idx <= b < buckets.Length ==> buckets[b] == Free
        invariant !done ==> idx < next && buckets[next - 1].Used? && val == Some(buckets[next - 1].val)
        invariant !done ==> forall b :: idx <= b < next - 1 ==> buckets[b] == Free
        decreases buckets.Length - idx
      {
        SkipFree(t, idx, next - 1);
        assert t[..next][..next - 1] == t[..next - 1];
        visited := visited + [val.value];
        idx := next;
        done, val, next := Next(idx);
      }
      SkipFree(t, idx, buckets.Length);
      assert t[..buckets.Length] == t;
    }

    static method Reinsert(a: array<Bucket<V>>, k: int, v: V, ghost t: seq<Bucket<V>>, ghost i: nat)
      requires TableOk(a[..]) && Count(a[..]) < a.Length && TableOk(t) && i < |t| && t[i] == Used(k, v)
      requires Model(a[..]) == Model(t[..i])
      modifies a
      ensures TableOk(a[..]) && Count(a[..]) <= Count(old(a[..])) + 1
      ensures Model(a[..]) == Model(t[..i])[k := v]
    {
      ghost var was := a[..];
      ModelDomain(t[..i], k);
      ModelDomain(was, k);
      assert forall b :: 0 <= b < i ==> t[..i][b] == t[b];
      var s := ProbeFree(a, k);
      WriteKeepsTable(was, k, v, s);
      CountWrite(was, s, Used(k, v));
      ModelWrite(was, s, k, v);
      a[s] := Used(k, v);
      assert a[..] == was[s := Used(k, v)];
    }
  }

  lemma {:induction false} AllFree<V>(t: seq<Bucket<V>>)
    requires forall b :: 0 <= b < |t| ==> t[b] == Free
    ensures Count(t) == 0 && Model(t) == map[]
    ensures 0 < |t| ==> TableOk(t)
  {
    if t != [] { AllFree(t[..|t| - 1]); }
  }

  // The probe loop: from the key's home to the first bucket that is empty or holds the key.
  method Probe<V>(a: array<Bucket<V>>, k: int) returns (s: nat)
    requires IsKey(k) && Count(a[..]) < a.Length
    ensures IsSlot(a[..], k, s)
  {
    ghost var e := SomeFree(a[..]);
    ghost var h := Home(k, a.Length);
    ghost var j := 0;
    s := Home(k, a.Length);
    StepDist(h, e, a.Length);
    while a[s].Used? && a[s].key != k
      invariant s < a.Length && j <= Dist(h, e, a.Length) && s == Step(h, j, a.Length)
      invariant Passes(a[..], k, j)
      decreases Dist(h, e, a.Length) - j
    {
      NextStep(h, j, a.Length);
      s := (s + 1) % a.Length;
      j := j + 1;
    }
    NextStep(h, j, a.Length);
  }

  // The growth's probe loop compares no keys: it stops at the first empty bucket,
  // which is the key's slot because the key is not in the new table.
  method ProbeFree<V>(a: array<Bucket<V>>, k: int) returns (s: nat)
    requires IsKey(k) && Count(a[..]) < a.Length && !Holds(a[..], k)
    ensures IsSlot(a[..], k, s) && a[s] == Free
  {
    ghost var e := SomeFree(a[..]);
    ghost var h := Home(k, a.Length);
    ghost var j := 0;
    s := Home(k, a.Length);
    StepDist(h, e, a.Length);
    while a[s].Used?
      invariant s < a.Length && j <= Dist(h, e, a.Length) && s == Step(h, j, a.Length)
      invariant Passes(a[..], k, j)
      decreases Dist(h, e, a.Length) - j
    {
      assert a[..][s].key != k;
      NextStep(h, j, a.Length);
      s := (s + 1) % a.Length;
      j := j + 1;
    }
    NextStep(h, j, a.Length);
  }

  // ── FOR IN ──

  // The values of the occupied buckets, in bucket order.
  ghost function Values<V>(t: seq<Bucket<V>>): seq<V> {
    if t == [] then []
    else Values(t[..|t| - 1]) + (if t[|t| - 1].Used? then [t[|t| - 1].val] else [])
  }

  lemma {:induction false} SkipFree<V>(t: seq<Bucket<V>>, i: nat, j: nat)
    requires i <= j <= |t| && forall b :: i <= b < j ==> t[b] == Free
    ensures Values(t[..j]) == Values(t[..i])
  {
    if i < j {
      SkipFree(t, i, j - 1);
      assert t[..j][..j - 1] == t[..j - 1];
    }
  }

  // Every occupied bucket is visited exactly once: its value comes right after
  // those of the occupied buckets before it.
  lemma {:induction false} VisitedOnce<V>(t: seq<Bucket<V>>, b: nat)
    requires b < |t| && t[b].Used?
    ensures |Values(t)| == Count(t) && Count(t[..b]) < Count(t)
    ensures Values(t)[Count(t[..b])] == t[b].val
  {
    var last := |t| - 1;
    ValuesLength(t[..last]);
    ValuesLength(t);
    if b < last {
      VisitedOnce(t[..last], b);
      assert t[..last][..b] == t[..b];
    }
  }

  lemma {:induction false} ValuesLength<V>(t: seq<Bucket<V>>)
    ensures |Values(t)| == Count(t)
  {
    if t != [] { ValuesLength(t[..|t| - 1]); }
  }

  // ── Growth loses bindings ──

  // The slot of a key whose home is empty is its home.
  lemma HomeSlot<V>(t: seq<Bucket<V>>, k: int, s: nat)
    requires 0 < |t| && IsKey(k) && IsSlot(t, k, s) && t[Home(k, |t|)] == Free
    ensures s == Home(k, |t|)
  {
    var h := Home(k, |t|);
    StepDist(h, s, |t|);
    assert Step(h, 0, |t|) == h;
  }

  // Seven puts of distinct keys, nothing ever removed: the seventh grows the
  // table and the binding of key 7, whose bucket is past len, is gone.
  method LosingRun() returns (m: Table<int>, before: bool, after: bool)
    ensures before && !after
  {
    hide Model, Passes, Probing, Unique, KeysOk, Count, Doubled;
    m := new Table<int>();
    ghost var t := m.buckets[..];
    var k := 7;
    while 2 <= k
      invariant 1 <= k <= 7 && m.Valid() && fresh(m) && fresh(m.buckets) && m.buckets.Length == INITIAL_CAP
      invariant m.len == 7 - k
      invariant forall b :: 0 <= b < INITIAL_CAP ==> m.buckets[b] == if k < b then Used(b, b) else Free
      decreases k
    {
      ghost var was := m.buckets[..];
      ghost var s := m.Put(k, k);
      HomeSlot(was, k, s);
      k := k - 1;
    }
    ModelDomain(m.buckets[..], 7);
    assert m.buckets[..][7] == Used(7, 7);
    before := m.Has(7);
    ghost var full := m.buckets[..];
    ModelDomain(full[..6], 7);
    assert 4 * m.len >= 3 * m.buckets.Length;
    ghost var s := m.Put(0, 0);
    after := m.Has(7);
  }
}
