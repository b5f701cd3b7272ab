/** The symbol table: buckets of nodes of different scopes, found by hashing the
    name and probing further buckets on a collision within a scope. */
module SymbolTable {
  import Numbers

  /** `id` is the identity of the node object. */
  datatype Node = Node(name: string, scope: int, id: nat)

  datatype Hash = Hash(value: nat, scope: int)

  /** `Lost`: add ran out of probes, stored nothing, and reported an index. */
  datatype AddResult = Stored(at: Hash) | Uninitialized | Full | Duplicate | Lost(at: Hash)

  datatype FindResult = Found(at: Hash) | NoTable | Undefined

  const TWO64: nat := 0x1_0000_0000_0000_0000

  function Rehash(v: nat, i: nat, size: nat): (r: nat)
    requires size > 0
    ensures r < size
  {
    (v * i % TWO64) % size
  }

  /** The bucket of probe number `k` of a name: the first one is its hash, and
      each further one multiplies by the number of the probe. */
  function Probe(h: nat, k: nat, size: nat): (r: nat)
    requires size > 0
    ensures r < size
    decreases k
  {
    if k == 0 then h % size else Rehash(Probe(h, k - 1, size), k + 1, size)
  }

  function Factorial(k: nat): (f: nat)
    ensures f > 0
  {
    if k == 0 then 1 else k * Factorial(k - 1)
  }

  /** Each probe in closed form, as long as the product fits the word: the hash
      times the numbers of all the probes made. */
  lemma {:induction false} ProbeProduct(h: nat, k: nat, size: nat)
    requires size > 0 && size * (k + 1) <= 0x1_0000_0000_0000_0000
    ensures Probe(h, k, size) == h * Factorial(k + 1) % size
  {
    if k == 0 {
      assert Factorial(1) == 1;
    } else {
      ScaledLess(k, size);
      ProbeProduct(h, k - 1, size);
      ProbeStep(h, Factorial(k), Probe(h, k - 1, size), k + 1, size);
    }
  }

  lemma ProbeStep(h: nat, f: nat, p: nat, i: nat, size: nat)
    requires size > 0 && i > 0 && size * i <= TWO64 && p == h * f % size
    ensures Rehash(p, i, size) == h * (i * f) % size
  {
    FitsWord(p, i, size);
    RemainderTimes(h * f, i, size);
    Regroup(h, f, i);
  }

  lemma Regroup(h: nat, f: nat, i: nat)
    ensures h * f * i == h * (i * f)
  {
  }

  lemma ScaledLess(k: nat, size: nat)
    ensures size * k <= size * (k + 1)
  {
  }

  lemma FitsWord(p: nat, i: nat, size: nat)
    requires p < size && i > 0 && size * i <= TWO64
    ensures p * i % TWO64 == p * i
  {
    Numbers.MulLe(i, p + 1, size);
    assert i * (p + 1) == i * p + i;
  }

  lemma RemainderTimes(x: nat, i: nat, size: nat)
    requires size > 0
    ensures x % size * i % size == x * i % size
  {
    var q := x / size;
    Numbers.ModuloShift(x * i, q * i, size);
    Spread(size, q, x % size, i, x);
  }

  lemma Spread(size: nat, q: nat, r: nat, i: nat, x: nat)
    requires x == size * q + r
    ensures r * i == x * i - size * (q * i)
  {
    assert x * i == size * q * i + r * i;
    assert size * q * i == size * (q * i);
  }

  /** The node of a scope in a bucket. */
  function Search(bucket: seq<Node>, scope: int): (r: seq<Node>)
    ensures |r| <= 1 && (r != [] ==> r[0] in bucket && r[0].scope == scope)
    ensures r == [] ==> forall n | n in bucket :: n.scope != scope
  {
    if bucket == [] then []
    else if bucket[0].scope == scope then [bucket[0]]
    else Search(bucket[1..], scope)
  }

  lemma {:induction false} SearchAppend(bucket: seq<Node>, n: Node, scope: int)
    ensures Search(bucket + [n], scope) ==
      if Search(bucket, scope) != [] then Search(bucket, scope) else if n.scope == scope then [n] else []
  {
    if bucket == [] {
      assert [n][1..] == [];
    } else {
      assert (bucket + [n])[1..] == bucket[1..] + [n];
      SearchAppend(bucket[1..], n, scope);
    }
  }

  /** What `get` returns for bucket `v` and a scope: nothing in a negative scope. */
  function Get(table: seq<seq<Node>>, v: nat, scope: int): (r: seq<Node>)
    requires v < |table|
    ensures |r| <= 1
  {
    if scope < 0 then [] else Search(table[v], scope)
  }

  /** Probing for (scope, name): the number of the first probe, from `k`, whose
      bucket is free in the scope or holds the name; or the size minus one, when
      the probes run out. */
  function Landing(table: seq<seq<Node>>, h: nat, name: string, scope: int, k: nat): (r: nat)
    requires |table| > 0
    ensures k <= r
    decreases |table| - k
  {
    if k + 1 >= |table| then k
    else
      var n := Get(table, Probe(h, k, |table|), scope);
      if n == [] || n[0].name == name then k else Landing(table, h, name, scope, k + 1)
  }

  /** Probe number `j` of a name is taken by another name of the scope. */
  predicate Taken(table: seq<seq<Node>>, h: nat, name: string, scope: int, j: nat)
    requires |table| > 0
  {
    var n := Get(table, Probe(h, j, |table|), scope);
    n != [] && n[0].name != name
  }

  /** Probing goes on exactly over the buckets taken by other names; it runs out
      exactly when all of them are. */
  lemma {:induction false} LandingTaken(table: seq<seq<Node>>, h: nat, name: string, scope: int, k: nat)
    requires |table| > 0
    ensures var r := Landing(table, h, name, scope, k);
      (forall j | k <= j < r :: Taken(table, h, name, scope, j)) &&
      (r + 1 < |table| ==> !Taken(table, h, name, scope, r))
    ensures Landing(table, h, name, scope, k) + 1 >= |table| <==>
      forall j | k <= j < |table| - 1 :: Taken(table, h, name, scope, j)
    decreases |table| - k
  {
    hide Get, Probe;
    if k + 1 < |table| && Taken(table, h, name, scope, k) { LandingTaken(table, h, name, scope, k + 1); }
  }

  lemma FirstProbe(h: nat, size: nat)
    requires size > 0
    ensures Probe(h, 0, size) == h % size
  {
  }

  /** One round of the search. */
  lemma LandingStep(table: seq<seq<Node>>, h: nat, name: string, scope: int, k: nat)
    requires k + 1 < |table|
    ensures var n := Get(table, Probe(h, k, |table|), scope);
      Landing(table, h, name, scope, k) ==
        if n == [] || n[0].name == name then k else Landing(table, h, name, scope, k + 1)
    ensures Probe(h, k + 1, |table|) == Rehash(Probe(h, k, |table|), k + 2, |table|)
    ensures Get(table, Probe(h, k, |table|), scope) == [] ==>
      (forall j | 0 <= j < k :: Taken(table, h, name, scope, j)) ==> FirstFree(table, h, name, scope, k)
  {
    hide Rehash, Get, Taken;
  }

  /** Probe `k` is the first one free for the name, after only other names. */
  predicate FirstFree(table: seq<seq<Node>>, h: nat, name: string, scope: int, k: nat)
    requires |table| > 0
  {
    k + 1 < |table| && Get(table, Probe(h, k, |table|), scope) == [] &&
    forall j | 0 <= j < k :: Taken(table, h, name, scope, j)
  }

  // ----- the table as a map -----

  type Names = map<(int, string), Node>

  /** What the probes find for a name in a scope. */
  function Lookup(table: seq<seq<Node>>, h: nat, name: string, scope: int): (r: seq<Node>)
    ensures |r| <= 1
  {
    if |table| == 0 then []
    else
      var k := Landing(table, h, name, scope, 0);
      if k + 1 >= |table| then [] else Get(table, Probe(h, k, |table|), scope)
  }

  /** Every name of the map is found by its probes, which means that all earlier
      probes in its scope are taken by other names, and nothing else is found. */
  ghost predicate Represents(table: seq<seq<Node>>, hash: string -> nat, m: Names) {
    (forall key | key in m :: Lookup(table, hash(key.1), key.1, key.0) == [m[key]] && m[key].name == key.1) &&
    (forall v, s: int {:trigger Get(table, v, s)} | 0 <= v < |table| && Get(table, v, s) != [] ::
       (s, Get(table, v, s)[0].name) in m && m[(s, Get(table, v, s)[0].name)] == Get(table, v, s)[0])
  }

  function Put(table: seq<seq<Node>>, v: nat, n: Node): seq<seq<Node>>
    requires v < |table|
  {
    table[v := table[v] + [n]]
  }

  lemma PutGet(table: seq<seq<Node>>, v: nat, n: Node, u: nat, s: int)
    requires v < |table| && u < |table|
    ensures Get(Put(table, v, n), u, s) ==
      if s >= 0 && u == v && s == n.scope && Get(table, u, s) == [] then [n] else Get(table, u, s)
  {
    SearchAppend(table[v], n, s);
  }

  /** A name that its probes find is found after any later addition. */
  lemma {:induction false} LandingKept(table: seq<seq<Node>>, v: nat, n: Node, h: nat, name: string, s: int, k: nat)
    requires v < |table|
    requires var r := Landing(table, h, name, s, k); r + 1 < |table| && Get(table, Probe(h, r, |table|), s) != []
    ensures Landing(Put(table, v, n), h, name, s, k) == Landing(table, h, name, s, k)
    decreases |table| - k
  {
    hide Probe, Get;
    if k + 1 < |table| {
      PutGet(table, v, n, Probe(h, k, |table|), s);
      var g := Get(table, Probe(h, k, |table|), s);
      if !(g == [] || g[0].name == name) { LandingKept(table, v, n, h, name, s, k + 1); }
    }
  }

  /** A new name lands on the free bucket it was put in. */
  lemma {:induction false} LandingNew(table: seq<seq<Node>>, n: Node, h: nat, k: nat)
    requires |table| > 0 && n.scope >= 0
    requires var r := Landing(table, h, n.name, n.scope, k);
      r + 1 < |table| && Get(table, Probe(h, r, |table|), n.scope) == []
    ensures var r := Landing(table, h, n.name, n.scope, k);
      Landing(Put(table, Probe(h, r, |table|), n), h, n.name, n.scope, k) == r
    decreases |table| - k
  {
    hide Probe, Get;
    var r := Landing(table, h, n.name, n.scope, k);
    if k + 1 < |table| {
      PutGet(table, Probe(h, r, |table|), n, Probe(h, k, |table|), n.scope);
      var g := Get(table, Probe(h, k, |table|), n.scope);
      if !(g == [] || g[0].name == n.name) { LandingNew(table, n, h, k + 1); }
    }
  }

  /** What its probes find is found after any later addition. */
  lemma LookupKept(table: seq<seq<Node>>, v: nat, n: Node, h: nat, name: string, s: int)
    requires v < |table| && Lookup(table, h, name, s) != []
    ensures Lookup(Put(table, v, n), h, name, s) == Lookup(table, h, name, s)
  {
    hide Probe, Get, Landing;
    LandingKept(table, v, n, h, name, s, 0);
    PutGet(table, v, n, Probe(h, Landing(table, h, name, s, 0), |table|), s);
  }

  lemma LookupNew(table: seq<seq<Node>>, n: Node, h: nat)
    requires |table| > 0 && n.scope >= 0
    requires var r := Landing(table, h, n.name, n.scope, 0);
      r + 1 < |table| && Get(table, Probe(h, r, |table|), n.scope) == []
    ensures var v := Probe(h, Landing(table, h, n.name, n.scope, 0), |table|);
      Lookup(Put(table, v, n), h, n.name, n.scope) == [n]
  {
    hide Probe, Get, Landing;
    var v := Probe(h, Landing(table, h, n.name, n.scope, 0), |table|);
    LandingNew(table, n, h, 0);
    PutGet(table, v, n, v, n.scope);
  }

  /** Storing a name that is not there adds it to the map and changes no other
      lookup. */
  lemma PutRepresents(table: seq<seq<Node>>, hash: string -> nat, m: Names, n: Node)
    requires Represents(table, hash, m) && n.scope >= 0 && |table| > 0
    requires var r := Landing(table, hash(n.name), n.name, n.scope, 0);
      r + 1 < |table| && Get(table, Probe(hash(n.name), r, |table|), n.scope) == []
    ensures var r := Landing(table, hash(n.name), n.name, n.scope, 0);
      (n.scope, n.name) !in m &&
      Represents(Put(table, Probe(hash(n.name), r, |table|), n), hash, m[(n.scope, n.name) := n])
  {
    hide Probe, Get, Landing, Lookup, Put;
    LookupIsMap(table, hash, m, n.name, n.scope);
    var v := Probe(hash(n.name), Landing(table, hash(n.name), n.name, n.scope, 0), |table|);
    var t := Put(table, v, n);
    var m1 := m[(n.scope, n.name) := n];
    forall key | key in m1
      ensures Lookup(t, hash(key.1), key.1, key.0) == [m1[key]] && m1[key].name == key.1 {
      if key == (n.scope, n.name) {
        LookupNew(table, n, hash(n.name));
      } else {
        assert Lookup(table, hash(key.1), key.1, key.0) == [m[key]];
        LookupKept(table, v, n, hash(key.1), key.1, key.0);
      }
    }
    PutBuckets(table, v, n, hash, m);
  }

  lemma PutBuckets(table: seq<seq<Node>>, v: nat, n: Node, hash: string -> nat, m: Names)
    requires Represents(table, hash, m) && v < |table| && (n.scope, n.name) !in m
    ensures forall u, s: int {:trigger Get(Put(table, v, n), u, s)} |
      0 <= u < |table| && Get(Put(table, v, n), u, s) != [] ::
      var g := Get(Put(table, v, n), u, s)[0];
      var m1 := m[(n.scope, n.name) := n];
      (s, g.name) in m1 && m1[(s, g.name)] == g
    ensures |Put(table, v, n)| == |table|
  {
    hide Get, Lookup, Put;
    assert |Put(table, v, n)| == |table| by { PutSize(table, v, n); }
    forall u, s: int | 0 <= u < |table| && Get(Put(table, v, n), u, s) != []
      ensures var g := Get(Put(table, v, n), u, s)[0];
        var m1 := m[(n.scope, n.name) := n];
        (s, g.name) in m1 && m1[(s, g.name)] == g {
      PutGet(table, v, n, u, s);
    }
  }

  lemma PutSize(table: seq<seq<Node>>, v: nat, n: Node)
    requires v < |table|
    ensures |Put(table, v, n)| == |table|
  {
  }

  /** A node without a scope is stored where no lookup finds it. */
  lemma PutScopeless(table: seq<seq<Node>>, hash: string -> nat, m: Names, n: Node, v: nat)
    requires Represents(table, hash, m) && n.scope < 0 && v < |table|
    ensures Represents(Put(table, v, n), hash, m)
  {
    hide Probe, Get, Landing;
    var t := Put(table, v, n);
    forall key | key in m ensures Lookup(t, hash(key.1), key.1, key.0) == [m[key]] {
      LookupKept(table, v, n, hash(key.1), key.1, key.0);
    }
    forall u, s: int | 0 <= u < |t| && Get(t, u, s) != []
      ensures (s, Get(t, u, s)[0].name) in m && m[(s, Get(t, u, s)[0].name)] == Get(t, u, s)[0] {
      PutGet(table, v, n, u, s);
    }
  }

  /** The probes of a name end on it, on a free bucket, or run out. */
  lemma LookupIsMap(table: seq<seq<Node>>, hash: string -> nat, m: Names, name: string, s: int)
    requires Represents(table, hash, m) && |table| > 0
    ensures var k := Landing(table, hash(name), name, s, 0);
      ((s, name) in m <==> k + 1 < |table| && Get(table, Probe(hash(name), k, |table|), s) != [])
    ensures (s, name) in m ==> Lookup(table, hash(name), name, s) == [m[(s, name)]]
  {
    hide Probe, Get;
    LandingStops(table, hash(name), name, s, 0);
    if (s, name) in m { assert Lookup(table, hash((s, name).1), (s, name).1, (s, name).0) == [m[(s, name)]]; }
  }

  lemma {:induction false} LandingStops(table: seq<seq<Node>>, h: nat, name: string, s: int, k: nat)
    requires |table| > 0
    ensures var r := Landing(table, h, name, s, k);
      r + 1 < |table| && Get(table, Probe(h, r, |table|), s) != [] ==>
      Get(table, Probe(h, r, |table|), s)[0].name == name
    decreases |table| - k
  {
    hide Probe, Get;
    if k + 1 < |table| {
      var n := Get(table, Probe(h, k, |table|), s);
      if !(n == [] || n[0].name == name) { LandingStops(table, h, name, s, k + 1); }
    }
  }

  lemma {:induction false} ZeroProbes(h: nat, k: nat, size: nat)
    requires size > 0 && h % size == 0
    ensures Probe(h, k, size) == 0
  {
    if k > 0 {
      ZeroProbes(h, k - 1, size);
      ZeroRehash(k + 1, size);
    }
  }

  lemma ZeroRehash(i: nat, size: nat)
    requires size > 0
    ensures Rehash(0, i, size) == 0
  {
    assert 0 * i == 0;
  }

  /** Names that hash to bucket 0 have no other probe: in each scope only the
      first of them can be stored, and adding another one is lost. */
  lemma {:induction false} ZeroHashLost(table: seq<seq<Node>>, h: nat, name: string, s: int, k: nat)
    requires |table| > 0 && h % |table| == 0
    requires Get(table, 0, s) != [] && Get(table, 0, s)[0].name != name
    ensures Landing(table, h, name, s, k) + 1 >= |table|
    decreases |table| - k
  {
    ZeroProbes(h, k, |table|);
    if k + 1 < |table| { ZeroHashLost(table, h, name, s, k + 1); }
  }

  // ----- the number of used buckets -----

  function Used(table: seq<seq<Node>>): (n: nat)
    ensures n <= |table|
  {
    if table == [] then 0 else (if table[0] == [] then 0 else 1) + Used(table[1..])
  }

  lemma {:induction false} UsedPut(table: seq<seq<Node>>, v: nat, n: Node)
    requires v < |table|
    ensures Used(Put(table, v, n)) == Used(table) + if table[v] == [] then 1 else 0
  {
    if v == 0 {
      assert Put(table, v, n)[1..] == table[1..];
    } else {
      assert Put(table, v, n)[1..] == Put(table[1..], v - 1, n);
      UsedPut(table[1..], v - 1, n);
    }
  }

  lemma {:induction false} UsedNone(table: seq<seq<Node>>, v: nat)
    requires Used(table) == 0 && v < |table|
    ensures table[v] == []
  {
    if v > 0 { UsedNone(table[1..], v - 1); }
  }

  lemma UnusedEmpty(table: seq<seq<Node>>, hash: string -> nat, m: Names, key: (int, string))
    requires Represents(table, hash, m) && Used(table) == 0
    ensures key !in m
  {
    hide Landing, Probe;
    if key in m && |table| > 0 {
      var v := Probe(hash(key.1), Landing(table, hash(key.1), key.1, key.0, 0), |table|);
      assert Lookup(table, hash(key.1), key.1, key.0) == [m[key]];
      UsedNone(table, v);
    }
  }

  // ----- innermost scopes -----

  predicate NotIn(m: Names, name: string, scopes: seq<int>) {
    forall j | 0 <= j < |scopes| :: (scopes[j], name) !in m
  }

  /** `s` is the first of the scopes that holds the name. */
  ghost predicate Innermost(m: Names, name: string, scopes: seq<int>, s: int) {
    (s, name) in m && exists i | 0 <= i < |scopes| :: scopes[i] == s && NotIn(m, name, scopes[..i])
  }

  // ----- the table, updating in place -----

  class Table {
    const hash: string -> nat
    const size: nat
    const buckets: array<seq<Node>>
    var amount: nat
    ghost var names: Names

    ghost predicate Valid()
      reads this, buckets
    {
      buckets.Length == size && amount == Used(buckets[..]) && Represents(buckets[..], hash, names)
    }

    constructor (h: string -> nat, s: nat)
      ensures Valid() && fresh(buckets) && hash == h && size == s && names == map[]
    {
      hash, size, amount := h, s, 0;
      var b := new seq<Node>[s](i => []);
      buckets := b;
      names := map[];
      new;
      EmptyUsed(buckets[..]);
    }

    /** Add a node: duplicates are rejected, and with a free bucket among its
        probes the name is stored. */
    method Add(n: Node) returns (r: AddResult)
      requires Valid()
      modifies this`amount, this`names, buckets
      ensures Valid()
      ensures r.Uninitialized? <==> size == 0
      ensures r.Full? <==> size > 0 && old(amount) >= size
      ensures r.Duplicate? <==> size > 0 && old(amount) < size && (n.scope, n.name) in old(names)
      ensures r.Lost? <==>
        (size > 0 && old(amount) < size && (n.scope, n.name) !in old(names) &&
         forall j | 0 <= j < size - 1 :: Taken(old(buckets[..]), hash(n.name), n.name, n.scope, j))
      ensures r.Stored? ==> (n.scope, n.name) !in old(names) && r.at.scope == n.scope
      ensures r.Stored? ==> size > 0 && exists k: nat ::
        FirstFree(old(buckets[..]), hash(n.name), n.name, n.scope, k) && r.at.value == Probe(hash(n.name), k, size)
      ensures r.Stored? ==> r.at.value < size && buckets[..] == Put(old(buckets[..]), r.at.value, n)
      ensures !r.Stored? ==> buckets[..] == old(buckets[..])
      ensures r.Stored? && n.scope >= 0 ==> names == old(names)[(n.scope, n.name) := n]
      ensures !r.Stored? || n.scope < 0 ==> names == old(names)
    {
      hide Represents, Landing, Get, Probe, Put, Rehash, Taken, FirstFree;
      if size == 0 { return Uninitialized; }
      if amount >= size { return Full; }
      ghost var t := buckets[..];
      ghost var h := hash(n.name);
      LookupIsMap(t, hash, names, n.name, n.scope);
      LandingTaken(t, h, n.name, n.scope, 0);
      var v := hash(n.name) % size;
      FirstProbe(h, size);
      var i := 1;
      while i < size
        invariant 1 <= i <= size && v == Probe(h, i - 1, size) && buckets[..] == t
        invariant Valid() && names == old(names) && amount == old(amount)
        invariant Landing(t, h, n.name, n.scope, 0) == Landing(t, h, n.name, n.scope, i - 1)
      {
        var tmp := Get(buckets[..], v, n.scope);
        LandingStep(t, h, n.name, n.scope, i - 1);
        if tmp == [] {
          Store(v, n);
          return Stored(Hash(v, n.scope));
        }
        if tmp[0].name == n.name { return Duplicate; }
        i := i + 1;
        v := Rehash(v, i, size);
      }
      r := Lost(Hash(v, n.scope));
    }

    method Store(v: nat, n: Node)
      requires Valid() && v < size
      requires n.scope >= 0 ==> (var r := Landing(buckets[..], hash(n.name), n.name, n.scope, 0);
        r + 1 < size && v == Probe(hash(n.name), r, size) && Get(buckets[..], v, n.scope) == [])
      modifies this`amount, this`names, buckets
      ensures Valid() && buckets[..] == Put(old(buckets[..]), v, n)
      ensures names == if n.scope >= 0 then old(names)[(n.scope, n.name) := n] else old(names)
    {
      hide Represents, Probe, Landing;
      ghost var t := buckets[..];
      UsedPut(t, v, n);
      if n.scope >= 0 { PutRepresents(t, hash, names, n); } else { PutScopeless(t, hash, names, n, v); }
      if buckets[v] == [] { amount := amount + 1; }
      buckets[v] := buckets[v] + [n];
      assert buckets[..] == Put(t, v, n);
      if n.scope >= 0 { names := names[(n.scope, n.name) := n]; }
    }

    /** Search the scopes in turn: the first one that holds the name wins. */
    method Find(name: string, scopes: seq<int>) returns (r: FindResult)
      requires Valid()
      ensures r.NoTable? <==> size == 0
      ensures r.Found? ==> r.at.value < size && Innermost(names, name, scopes, r.at.scope)
      ensures r.Found? ==> Get(buckets[..], r.at.value, r.at.scope) == [names[(r.at.scope, name)]]
      ensures r.Undefined? <==> size > 0 && NotIn(names, name, scopes)
    {
      hide Represents, Get, Used;
      if size == 0 { return NoTable; }
      if amount == 0 {
        forall j | 0 <= j < |scopes| ensures (scopes[j], name) !in names {
          UnusedEmpty(buckets[..], hash, names, (scopes[j], name));
        }
        return Undefined;
      }
      var s := 0;
      while s < |scopes|
        invariant s <= |scopes| && NotIn(names, name, scopes[..s])
      {
        var at := FindIn(name, scopes[s]);
        if at != [] {
          assert scopes == scopes[..s] + [scopes[s]] + scopes[s + 1..];
          return Found(Hash(at[0], scopes[s]));
        }
        s := s + 1;
      }
      assert scopes[..s] == scopes;
      r := Undefined;
    }

    method FindIn(name: string, scope: int) returns (at: seq<nat>)
      requires Valid() && size > 0
      ensures |at| <= 1 && (at != [] <==> (scope, name) in names)
      ensures at != [] ==> at[0] < size && Get(buckets[..], at[0], scope) == [names[(scope, name)]]
    {
      hide Represents;
      ghost var t, h := buckets[..], hash(name);
      LookupIsMap(t, hash, names, name, scope);
      var v := hash(name) % size;
      var i := 1;
      while i < size
        invariant 1 <= i <= size && v == Probe(h, i - 1, size)
        invariant Landing(t, h, name, scope, 0) == Landing(t, h, name, scope, i - 1)
      {
        var node := Get(buckets[..], v, scope);
        if node == [] { return []; }
        if node[0].name == name { return [v]; }
        i := i + 1;
        v := Rehash(v, i, size);
      }
      at := [];
    }
  }

  lemma {:induction false} EmptyUsed(table: seq<seq<Node>>)
    requires forall i | 0 <= i < |table| :: table[i] == []
    ensures Used(table) == 0
  {
    if table != [] {
      EmptyUsed(table[1..]);
    }
  }
}
