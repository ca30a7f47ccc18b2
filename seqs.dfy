// Facts about sequences that the generators rely on: duplicate-free
// sequences, the order-preserving "unique" of a column, and the bound on a
// sample drawn without replacement.

module Seqs {

  datatype Option<T> = None | Some(value: T)

  predicate NoDup<T(==)>(s: seq<T>) {
    forall i, j :: 0 <= i < j < |s| ==> s[i] != s[j]
  }

  /**
   * The distinct values of a column in order of first appearance, as a
   * table library's "unique" returns them.
   */
  function Unique<T(==)>(s: seq<T>): (u: seq<T>)
    ensures NoDup(u)
    ensures forall i :: 0 <= i < |u| ==> u[i] in s
    ensures forall i :: 0 <= i < |s| ==> s[i] in u
    ensures |u| <= |s|
  {
    if s == [] then []
    else
      var u := Unique(s[..|s| - 1]);
      if s[|s| - 1] in u then u else u + [s[|s| - 1]]
  }

  /** The set {0, ..., n-1}. */
  function Below(n: nat): (r: set<nat>)
    ensures forall i: nat :: i in r <==> i < n
    ensures |r| == n
  {
    if n == 0 then {}
    else
      var r := Below(n - 1);
      assert n - 1 !in r;
      r + {n - 1}
  }

  lemma {:induction false} NoDupCard<T>(s: seq<T>)
    requires NoDup(s)
    ensures |set x | x in s| == |s|
  {
    if s != [] {
      var init := s[..|s| - 1];
      var last := s[|s| - 1];
      assert NoDup(init);
      NoDupCard(init);
      assert last !in init;
      assert (set x | x in s) == (set x | x in init) + {last};
    }
  }

  lemma SubsetCard<T>(a: set<T>, b: set<T>)
    requires a <= b
    ensures |a| <= |b|
  {
    if a != {} {
      var x :| x in a;
      SubsetCard(a - {x}, b - {x});
    }
  }

  /**
   * Distinct positions of a population of size n number at most n: a sample
   * without replacement never holds more items than the population.
   */
  lemma SampleFits(picks: seq<nat>, n: nat)
    requires NoDup(picks)
    requires forall i :: 0 <= i < |picks| ==> picks[i] < n
    ensures |picks| <= n
  {
    NoDupCard(picks);
    SubsetCard((set x | x in picks), Below(n));
  }

  function Min(a: nat, b: nat): nat {
    if a <= b then a else b
  }

  /** The positions 0, ..., k-1 in order. */
  function Range(k: nat): (r: seq<nat>)
    ensures |r| == k
    ensures forall i :: 0 <= i < k ==> r[i] == i
  {
    if k == 0 then [] else Range(k - 1) + [k - 1]
  }

  /** The number of items in the first `p` blocks, when block `q` holds `counts[q]` items. */
  function Sum(counts: seq<nat>, p: nat): nat
    requires p <= |counts|
  {
    if p == 0 then 0 else Sum(counts, p - 1) + counts[p - 1]
  }

  /** When only block `i` holds items, `v` of them, the first `p` blocks hold `v` items if they include block `i`. */
  lemma {:induction false} SumSingle(counts: seq<nat>, p: nat, i: nat, v: nat)
    requires p <= |counts|
    requires forall q :: 0 <= q < |counts| ==> counts[q] == if q == i then v else 0
    ensures Sum(counts, p) == if i < p then v else 0
  {
    if p > 0 {
      SumSingle(counts, p - 1, i, v);
    }
  }

  /** Block `q`, which ends before block `p` starts, lies inside the first `p` blocks. */
  lemma {:induction false} SumBlockBefore(counts: seq<nat>, q: nat, p: nat)
    requires q < p <= |counts|
    ensures Sum(counts, q) + counts[q] <= Sum(counts, p)
  {
    if q + 1 < p {
      SumBlockBefore(counts, q, p - 1);
    }
  }

  /** Global position of the `j`-th item of block `p`. */
  function Pos(counts: seq<nat>, p: nat, j: nat): nat
    requires p < |counts|
  {
    Sum(counts, p) + j
  }

  /** How many items of `s` have key `k`. */
  function CountKey<T, K(==)>(s: seq<T>, key: T -> K, k: K): nat {
    if s == [] then 0
    else CountKey(s[..|s| - 1], key, k) + (if key(s[|s| - 1]) == k then 1 else 0)
  }

  lemma {:induction false} CountKeyAppend<T, K>(a: seq<T>, b: seq<T>, key: T -> K, k: K)
    ensures CountKey(a + b, key, k) == CountKey(a, key, k) + CountKey(b, key, k)
  {
    if b != [] {
      assert (a + b)[..|a + b| - 1] == a + b[..|b| - 1];
      CountKeyAppend(a, b[..|b| - 1], key, k);
    } else {
      assert a + b == a;
    }
  }

  /** A run whose items all carry key `c` holds `k` exactly |run| times if c == k, else never. */
  lemma {:induction false} CountKeyUniform<T, K>(run: seq<T>, key: T -> K, c: K, k: K)
    requires forall i :: 0 <= i < |run| ==> key(run[i]) == c
    ensures CountKey(run, key, k) == if c == k then |run| else 0
  {
    if run != [] {
      CountKeyUniform(run[..|run| - 1], key, c, k);
    }
  }

  /**
   * When a sequence is laid out as consecutive blocks, block q holding
   * counts[q] items that all carry keys[q], and the keys are distinct, then
   * key keys[p] occurs exactly counts[p] times.
   */
  lemma BlockCount<T, K>(s: seq<T>, counts: seq<nat>, keys: seq<K>, key: T -> K, p: nat)
    requires |counts| == |keys| && |s| == Sum(counts, |counts|)
    requires forall q, j :: 0 <= q < |counts| && 0 <= j < counts[q] ==>
      Pos(counts, q, j) < |s| && key(s[Pos(counts, q, j)]) == keys[q]
    requires NoDup(keys)
    requires p < |keys|
    ensures CountKey(s, key, keys[p]) == counts[p]
  {
    BlockCountPrefix(s, counts, keys, key, p, |counts|);
    assert s[..Sum(counts, |counts|)] == s;
  }

  lemma {:induction false} BlockCountPrefix<T, K>(s: seq<T>, counts: seq<nat>, keys: seq<K>, key: T -> K, p: nat, m: nat)
    requires |counts| == |keys| && |s| == Sum(counts, |counts|)
    requires forall q, j :: 0 <= q < |counts| && 0 <= j < counts[q] ==>
      Pos(counts, q, j) < |s| && key(s[Pos(counts, q, j)]) == keys[q]
    requires NoDup(keys)
    requires p < |keys| && m <= |counts|
    ensures Sum(counts, m) <= |s|
    ensures CountKey(s[..Sum(counts, m)], key, keys[p]) == if p < m then counts[p] else 0
  {
    if m == 0 {
      assert s[..0] == [];
    } else {
      BlockCountPrefix(s, counts, keys, key, p, m - 1);
      var lo, hi := Sum(counts, m - 1), Sum(counts, m);
      SumBlockBefore(counts, m - 1, |counts|);
      var block := s[lo..hi];
      forall i | 0 <= i < |block|
        ensures key(block[i]) == keys[m - 1]
      {
        assert block[i] == s[Pos(counts, m - 1, i)];
      }
      CountKeyUniform(block, key, keys[m - 1], keys[p]);
      assert s[..hi] == s[..lo] + block;
      CountKeyAppend(s[..lo], block, key, keys[p]);
      assert keys[m - 1] == keys[p] <==> m - 1 == p;
    }
  }

  /** The first `n` blocks laid end to end. */
  function Concat<T>(blocks: seq<seq<T>>, n: nat): seq<T>
    requires n <= |blocks|
  {
    if n == 0 then [] else Concat(blocks, n - 1) + blocks[n - 1]
  }

  /** How many items with key `k` each block holds. */
  function BlockKeyCounts<T, K(==)>(blocks: seq<seq<T>>, key: T -> K, k: K): (counts: seq<nat>)
    ensures |counts| == |blocks|
  {
    seq(|blocks|, p requires 0 <= p < |blocks| => CountKey(blocks[p], key, k))
  }

  /** Counting over blocks laid end to end adds up the blocks' own counts. */
  lemma {:induction false} ConcatCount<T, K>(blocks: seq<seq<T>>, n: nat, key: T -> K, k: K)
    requires n <= |blocks|
    ensures CountKey(Concat(blocks, n), key, k) == Sum(BlockKeyCounts(blocks, key, k), n)
  {
    if n > 0 {
      ConcatCount(blocks, n - 1, key, k);
      CountKeyAppend(Concat(blocks, n - 1), blocks[n - 1], key, k);
    }
  }

  lemma {:induction false} CountKeyAbsent<T, K>(s: seq<T>, key: T -> K, k: K)
    requires forall i :: 0 <= i < |s| ==> key(s[i]) != k
    ensures CountKey(s, key, k) == 0
  {
    if s != [] {
      CountKeyAbsent(s[..|s| - 1], key, k);
    }
  }

  /** When no two items share a key, every item's key occurs exactly once. */
  lemma {:induction false} CountKeyUnique<T, K>(s: seq<T>, key: T -> K, i: nat)
    requires forall a, b :: 0 <= a < b < |s| ==> key(s[a]) != key(s[b])
    requires i < |s|
    ensures CountKey(s, key, key(s[i])) == 1
  {
    var init := s[..|s| - 1];
    if i == |s| - 1 {
      CountKeyAbsent(init, key, key(s[i]));
    } else {
      CountKeyUnique(init, key, i);
    }
  }

  lemma CountKeySingle<T, K>(x: T, key: T -> K, k: K)
    ensures CountKey([x], key, k) == if key(x) == k then 1 else 0
  {
    assert [x][..0] == [];
    assert CountKey([x], key, k) == CountKey([x][..0], key, k) + (if key([x][0]) == k then 1 else 0);
  }
}
