/** The bounded LRU behind the query caches (internal/engine/cache.go). */
module Lru {

  datatype Option<+T> = None | Some(value: T)
  datatype Pair<+K, +V> = Pair(key: K, val: V)

  // ----- The cache as a recency list, most recent first -----

  function Without<K(==, !new), V(!new)>(l: seq<Pair<K, V>>, k: K): (r: seq<Pair<K, V>>)
    ensures |r| <= |l|
  {
    if l == [] then []
    else if l[0].key == k then Without(l[1..], k)
    else [l[0]] + Without(l[1..], k)
  }

  function Lookup<K(==, !new), V(!new)>(l: seq<Pair<K, V>>, k: K): (r: Option<V>) {
    if l == [] then None else if l[0].key == k then Some(l[0].val) else Lookup(l[1..], k)
  }

  lemma {:induction false} WithoutKeeps<K(!new), V(!new)>(l: seq<Pair<K, V>>, k: K, i: nat) returns (j: nat)
    requires i < |Without(l, k)|
    ensures j < |l| && l[j] == Without(l, k)[i] && l[j].key != k && i <= j
  {
    if l[0].key == k {
      j := WithoutKeeps(l[1..], k, i);
      j := j + 1;
    } else if i == 0 {
      j := 0;
    } else {
      j := WithoutKeeps(l[1..], k, i - 1);
      j := j + 1;
    }
  }

  lemma {:induction false} LookupNone<K(!new), V(!new)>(l: seq<Pair<K, V>>, k: K)
    ensures Lookup(l, k).None? <==> forall i :: 0 <= i < |l| ==> l[i].key != k
    ensures Lookup(l, k).None? ==> Without(l, k) == l
    ensures Lookup(l, k).Some? ==> exists i :: 0 <= i < |l| && l[i] == Pair(k, Lookup(l, k).value)
  {
    if l != [] {
      LookupNone(l[1..], k);
      if l[0].key != k {
        assert forall i :: 1 <= i < |l| ==> l[i] == l[1..][i - 1];
        assert forall i :: 0 <= i < |l[1..]| ==> l[1..][i] == l[i + 1];
      } else {
        assert l[0] == Pair(k, l[0].val);
      }
    }
  }

  /** A capacity of zero or less switches the cache off. */
  function AfterGet<K(==, !new), V(!new)>(cap: int, l: seq<Pair<K, V>>, k: K): seq<Pair<K, V>> {
    if cap <= 0 then l
    else match Lookup(l, k)
      case None => l
      case Some(v) => [Pair(k, v)] + Without(l, k)
  }

  function AfterPut<K(==, !new), V(!new)>(cap: int, l: seq<Pair<K, V>>, k: K, v: V): seq<Pair<K, V>> {
    if cap <= 0 then l
    else
      var grown := [Pair(k, v)] + Without(l, k);
      if |grown| > cap then grown[..|grown| - 1] else grown
  }

  ghost predicate DistinctKeys<K(!new), V(!new)>(l: seq<Pair<K, V>>) {
    forall i, j :: 0 <= i < j < |l| ==> l[i].key != l[j].key
  }

  lemma WithoutDistinct<K(!new), V(!new)>(l: seq<Pair<K, V>>, k: K)
    requires DistinctKeys(l)
    ensures DistinctKeys(Without(l, k))
    ensures |Without(l, k)| == |l| - (if Lookup(l, k).Some? then 1 else 0)
    ensures forall i :: 0 <= i < |Without(l, k)| ==> Without(l, k)[i].key != k
  {
    var at := Position(l, k);
    var m := Without(l, k);
    forall i, j | 0 <= i < j < |m| ensures m[i].key != m[j].key {
      assert m[i] == l[Skip(at, i)] && m[j] == l[Skip(at, j)];
    }
    forall i | 0 <= i < |m| ensures m[i].key != k {
      assert m[i] == l[Skip(at, i)];
    }
  }

  /** The index in `l` of what index `i` holds once position `at` is cut out. */
  function Skip(at: nat, i: nat): nat {
    if i < at then i else i + 1
  }

  /** Where the key is (or the length when absent), with `Without` and `Lookup` read off by index. */
  lemma {:induction false} Position<K(!new), V(!new)>(l: seq<Pair<K, V>>, k: K) returns (at: nat)
    requires DistinctKeys(l)
    ensures at <= |l|
    ensures at < |l| ==> l[at].key == k && Lookup(l, k) == Some(l[at].val) && |Without(l, k)| == |l| - 1
    ensures at == |l| ==> Lookup(l, k).None? && Without(l, k) == l
    ensures forall i :: 0 <= i < |Without(l, k)| ==> Skip(at, i) < |l| && Without(l, k)[i] == l[Skip(at, i)]
    ensures forall i :: 0 <= i < |l| && i != at ==> l[i].key != k
  {
    LookupNone(l, k);
    at := |l|;
    if Lookup(l, k).Some? {
      at :| 0 <= at < |l| && l[at] == Pair(k, Lookup(l, k).value);
      WithoutAt(l, at);
      DroppedAt(l, at);
    }
  }

  lemma DroppedAt<K(!new), V(!new)>(l: seq<Pair<K, V>>, at: nat)
    requires at < |l|
    ensures var m := l[..at] + l[at + 1..];
            |m| == |l| - 1 && forall i :: 0 <= i < |m| ==> Skip(at, i) < |l| && m[i] == l[Skip(at, i)]
  {
  }

  lemma {:induction false} WithoutAt<K(!new), V(!new)>(l: seq<Pair<K, V>>, i: nat)
    requires DistinctKeys(l) && i < |l|
    ensures Without(l, l[i].key) == l[..i] + l[i + 1..]
  {
    if i == 0 {
      LookupNone(l[1..], l[0].key);
    } else {
      WithoutAt(l[1..], i - 1);
      assert l[1..][..i - 1] == l[1..i] && l[1..][i..] == l[i + 1..];
      assert [l[0]] + l[1..i] == l[..i];
    }
  }

  // ----- The object: a linked list of shared elements plus a map into it -----

  class Element<K(!new), V(!new)> {
    const key: K
    var val: V

    constructor (key: K, val: V)
      ensures this.key == key && this.val == val
    {
      this.key := key;
      this.val := val;
    }
  }

  class Cache<K(==, !new), V(!new)> {
    const cap: int
    var ll: seq<Element<K, V>>
    var index: map<K, Element<K, V>>
    var hits: nat
    var misses: nat
    ghost var Contents: seq<Pair<K, V>>

    /** The map and the list hold the same elements, one per key. */
    ghost predicate Linked()
      reads this, ll
    {
      && |Contents| == |ll|
      && (forall i :: 0 <= i < |ll| ==> Contents[i] == Pair(ll[i].key, ll[i].val))
      && DistinctKeys(Contents)
      && (forall i :: 0 <= i < |ll| ==> ll[i].key in index && index[ll[i].key] == ll[i])
      && (forall k :: k in index ==> Lookup(Contents, k).Some?)
    }

    ghost predicate Valid()
      reads this, ll
    {
      Linked() && |ll| <= (if cap < 0 then 0 else cap)
    }

    constructor (cap: int)
      ensures Valid() && this.cap == cap && Contents == [] && hits == misses == 0
    {
      this.cap := cap;
      ll, index, hits, misses, Contents := [], map[], 0, 0, [];
    }

    /** A hit moves the element to the front; a miss changes only the counter. */
    method Get(key: K) returns (r: Option<V>)
      requires Valid()
      modifies this
      ensures Valid() && forall e :: e in ll ==> e in old(ll)
      ensures r == if cap <= 0 then None else Lookup(old(Contents), key)
      ensures Contents == AfterGet(cap, old(Contents), key)
      ensures hits == old(hits) + (if r.Some? then 1 else 0)
      ensures misses == old(misses) + (if r.Some? then 0 else 1)
    {
      if cap <= 0 {
        misses := misses + 1;
        return None;
      }
      if key in index {
        Indexed(key);
        MoveToFront(index[key]);
        hits := hits + 1;
        return Some(index[key].val);
      }
      misses := misses + 1;
      NotIndexed(key);
      return None;
    }

    /** An existing key is updated in place and moved; a new key goes in front and, past
        capacity, the back element leaves both the list and the map. */
    method Put(key: K, val: V)
      requires Valid()
      modifies this, ll
      ensures Valid() && forall e :: e in ll ==> e in old(ll) || fresh(e)
      ensures Contents == AfterPut(cap, old(Contents), key, val)
      ensures hits == old(hits) && misses == old(misses)
    {
      if cap <= 0 {
        return;
      }
      WithoutDistinct(Contents, key);
      if key in index {
        Indexed(key);
        Overwrite(index[key], val);
        MoveToFront(index[key]);
        assert Contents == [Pair(key, val)] + Without(old(Contents), key);
        return;
      }
      NotIndexed(key);
      LookupNone(Contents, key);
      PushFront(key, val);
      if |ll| > cap {
        RemoveBack();
      }
    }

    /** Drops every entry; the counters survive. */
    method Flush()
      requires Valid()
      modifies this
      ensures Valid() && ll == [] && Contents == []
      ensures hits == old(hits) && misses == old(misses)
    {
      ll, index, Contents := [], map[], [];
    }

    lemma NotIndexed(key: K)
      requires Linked() && key !in index
      ensures Lookup(Contents, key).None?
    {
      LookupNone(Contents, key);
    }

    lemma Indexed(key: K)
      requires Linked() && key in index
      ensures index[key] in ll && index[key].key == key
    {
      LookupNone(Contents, key);
      var i :| 0 <= i < |Contents| && Contents[i] == Pair(key, Lookup(Contents, key).value);
      assert ll[i].key == key;
    }

    method Overwrite(el: Element<K, V>, val: V)
      requires Linked() && el in ll
      modifies el, this`Contents
      ensures Linked() && el.val == val && |Contents| == old(|Contents|)
      ensures Without(Contents, el.key) == Without(old(Contents), el.key)
      ensures Lookup(old(Contents), el.key).Some?
    {
      var at :| 0 <= at < |ll| && ll[at] == el;
      LookupAt(Contents, at);
      WithoutAt(Contents, at);
      ghost var before := Contents;
      el.val := val;
      Contents := Contents[at := Pair(el.key, val)];
      forall i | 0 <= i < |ll| ensures Contents[i] == Pair(ll[i].key, ll[i].val) {
        assert before[i].key == ll[i].key;
      }
      WithoutAt(Contents, at);
      assert before[..at] == Contents[..at] && before[at + 1..] == Contents[at + 1..];
      SameKeys(before, Contents);
    }

    method PushFront(key: K, val: V)
      requires Linked() && key !in index
      modifies this`ll, this`index, this`Contents
      ensures Linked() && |ll| == old(|ll|) + 1 && fresh(ll[0])
      ensures ll[1..] == old(ll)
      ensures Contents == [Pair(key, val)] + old(Contents)
    {
      NotIndexed(key);
      var el := new Element(key, val);
      ll := [el] + ll;
      index := index[key := el];
      Contents := [Pair(key, val)] + Contents;
    }

    method RemoveBack()
      requires Linked() && ll != []
      modifies this`ll, this`index, this`Contents
      ensures Linked() && ll == old(ll[..|ll| - 1])
      ensures Contents == old(Contents[..|Contents| - 1])
    {
      var oldest := ll[|ll| - 1];
      DropLast(Contents);
      ll := ll[..|ll| - 1];
      Contents := Contents[..|Contents| - 1];
      index := map k | k in index && k != oldest.key :: index[k];
    }

    method MoveToFront(el: Element<K, V>)
      requires Linked() && el in ll
      modifies this`ll, this`Contents
      ensures Linked() && |ll| == old(|ll|) && forall e :: e in ll ==> e in old(ll)
      ensures Lookup(old(Contents), el.key) == Some(el.val)
      ensures Contents == [Pair(el.key, el.val)] + Without(old(Contents), el.key)
    {
      var at :| 0 <= at < |ll| && ll[at] == el;
      ghost var was, wasContents := ll, Contents;
      FrontAt(was, wasContents, at);
      ll := [el] + ll[..at] + ll[at + 1..];
      Contents := [Pair(el.key, el.val)] + Without(Contents, el.key);
      Refronted(wasContents, Contents[0]);
      forall e | e in was ensures e.key in index && index[e.key] == e {
        var i :| 0 <= i < |was| && was[i] == e;
        assert was[i].key in index;
      }
    }

    /** The list and the ghost contents stay aligned when position `at` of both moves to the front. */
    static lemma FrontAt(els: seq<Element<K, V>>, l: seq<Pair<K, V>>, at: nat)
      requires |l| == |els| && at < |els| && DistinctKeys(l)
      requires forall i :: 0 <= i < |els| ==> l[i] == Pair(els[i].key, els[i].val)
      ensures Lookup(l, els[at].key) == Some(els[at].val)
      ensures var now := [els[at]] + els[..at] + els[at + 1..];
              var pairs := [l[at]] + Without(l, l[at].key);
              && |now| == |pairs| == |els|
              && forall i :: 0 <= i < |now| ==> now[i] in els && pairs[i] == Pair(now[i].key, now[i].val)
    {
      LookupAt(l, at);
      WithoutAt(l, at);
    }
  }

  /** Moving a pair to the front keeps keys distinct and loses no key. */
  lemma Refronted<K(!new), V(!new)>(l: seq<Pair<K, V>>, p: Pair<K, V>)
    requires DistinctKeys(l)
    ensures DistinctKeys([p] + Without(l, p.key))
    ensures forall k :: Lookup(l, k).Some? ==> Lookup([p] + Without(l, p.key), k).Some?
    ensures forall k :: k != p.key ==> Lookup(Without(l, p.key), k) == Lookup(l, k)
  {
    WithoutDistinct(l, p.key);
    var m := [p] + Without(l, p.key);
    forall i, j | 0 <= i < j < |m| ensures m[i].key != m[j].key {
    }
    assert m[1..] == Without(l, p.key);
    forall k | k != p.key ensures Lookup(Without(l, p.key), k) == Lookup(l, k) {
      LookupOther(l, p.key, k);
    }
  }

  lemma SameKeys<K(!new), V(!new)>(l: seq<Pair<K, V>>, m: seq<Pair<K, V>>)
    requires |l| == |m| && forall i :: 0 <= i < |l| ==> l[i].key == m[i].key
    ensures forall k :: Lookup(l, k).Some? <==> Lookup(m, k).Some?
  {
    forall k ensures Lookup(l, k).Some? <==> Lookup(m, k).Some? {
      LookupNone(l, k);
      LookupNone(m, k);
    }
  }

  lemma DropLast<K(!new), V(!new)>(l: seq<Pair<K, V>>)
    requires DistinctKeys(l) && l != []
    ensures forall i :: 0 <= i < |l| - 1 ==> l[i].key != l[|l| - 1].key
    ensures forall k :: k != l[|l| - 1].key && Lookup(l, k).Some? ==> Lookup(l[..|l| - 1], k).Some?
  {
    forall k | k != l[|l| - 1].key && Lookup(l, k).Some? ensures Lookup(l[..|l| - 1], k).Some? {
      StillThere(l, k);
    }
  }

  lemma {:induction false} StillThere<K(!new), V(!new)>(l: seq<Pair<K, V>>, k: K)
    requires l != [] && k != l[|l| - 1].key && Lookup(l, k).Some?
    ensures Lookup(l[..|l| - 1], k).Some?
    decreases |l|
  {
    var init := l[..|l| - 1];
    assert |l| > 1 && init[0] == l[0];
    if l[0].key != k {
      StillThere(l[1..], k);
      assert init[1..] == l[1..][..|l| - 2];
    }
  }

  lemma {:induction false} LookupOther<K(!new), V(!new)>(l: seq<Pair<K, V>>, gone: K, k: K)
    requires k != gone
    ensures Lookup(Without(l, gone), k) == Lookup(l, k)
  {
    if l != [] {
      LookupOther(l[1..], gone, k);
    }
  }

  lemma {:induction false} LookupAt<K(!new), V(!new)>(l: seq<Pair<K, V>>, i: nat)
    requires DistinctKeys(l) && i < |l|
    ensures Lookup(l, l[i].key) == Some(l[i].val)
  {
    if i > 0 {
      LookupAt(l[1..], i - 1);
    }
  }

  // ----- Runs -----

  datatype Op<+K, +V> = GetOp(key: K) | PutOp(key: K, val: V) | FlushOp

  function AfterOp<K(==, !new), V(!new)>(cap: int, l: seq<Pair<K, V>>, op: Op<K, V>): seq<Pair<K, V>> {
    match op
    case GetOp(k) => AfterGet(cap, l, k)
    case PutOp(k, v) => AfterPut(cap, l, k, v)
    case FlushOp => []
  }

  /** The recency list after a whole run on a new cache. */
  function AfterTrace<K(==, !new), V(!new)>(cap: int, ops: seq<Op<K, V>>): seq<Pair<K, V>>
    decreases ops
  {
    if ops == [] then [] else AfterOp(cap, AfterTrace(cap, ops[..|ops| - 1]), ops[|ops| - 1])
  }

  lemma {:induction false} TraceBounded<K(!new), V(!new)>(cap: int, ops: seq<Op<K, V>>)
    ensures DistinctKeys(AfterTrace(cap, ops))
    ensures |AfterTrace(cap, ops)| <= (if cap < 0 then 0 else cap)
    decreases ops
  {
    if ops != [] {
      TraceBounded(cap, ops[..|ops| - 1]);
      var l := AfterTrace(cap, ops[..|ops| - 1]);
      match ops[|ops| - 1]
      case GetOp(k) => WithoutDistinct(l, k);
      case PutOp(k, v) => WithoutDistinct(l, k);
      case FlushOp =>
    }
  }

  /** `a` is `b` with some elements left out. */
  ghost predicate Subsequence<T(!new)>(a: seq<T>, b: seq<T>)
    decreases |b|
  {
    a == [] || (b != [] && if a[0] == b[0] then Subsequence(a[1..], b[1..]) else Subsequence(a, b[1..]))
  }

  lemma {:induction false} SubsequenceTail<T(!new)>(a: seq<T>, b: seq<T>)
    requires a != [] && Subsequence(a, b)
    ensures Subsequence(a[1..], b)
    decreases |b|, 1
  {
    if a[0] == b[0] {
      SubsequenceGrow(a[1..], b);
    } else {
      SubsequenceTail(a, b[1..]);
      SubsequenceGrow(a[1..], b);
    }
  }

  lemma {:induction false} SubsequenceGrow<T(!new)>(a: seq<T>, b: seq<T>)
    requires b != [] && Subsequence(a, b[1..])
    ensures Subsequence(a, b)
    decreases |b|, 0
  {
    if a != [] && a[0] == b[0] {
      SubsequenceTail(a, b[1..]);
    }
  }

  lemma {:induction false} SubsequenceMember<T(!new)>(a: seq<T>, b: seq<T>, x: T)
    requires Subsequence(a, b) && x in a
    ensures x in b && |a| <= |b|
    decreases |b|
  {
    if a[0] == b[0] {
      if a[1..] != [] {
        SubsequenceMember(a[1..], b[1..], if x in a[1..] then x else a[1]);
      }
    } else {
      SubsequenceMember(a, b[1..], x);
    }
  }

  lemma {:induction false} SubsequenceSameLength<T(!new)>(a: seq<T>, b: seq<T>)
    requires Subsequence(a, b) && |a| == |b|
    ensures a == b
    decreases |b|
  {
    if a != [] {
      if a[0] == b[0] {
        SubsequenceSameLength(a[1..], b[1..]);
        assert a == [a[0]] + a[1..] && b == [b[0]] + b[1..];
      } else {
        SubsequenceMember(a, b[1..], a[0]);
        assert false;
      }
    }
  }

  /** Dropping the last element of both keeps the relation. */
  lemma {:induction false} SubsequenceInit<T(!new)>(a: seq<T>, b: seq<T>)
    requires a != [] && Subsequence(a, b)
    ensures b != [] && Subsequence(a[..|a| - 1], b[..|b| - 1])
    decreases |b|
  {
    if |a| == 1 {
    } else if a[0] == b[0] {
      SubsequenceInit(a[1..], b[1..]);
      assert a[..|a| - 1][1..] == a[1..][..|a[1..]| - 1];
      assert b[..|b| - 1][1..] == b[1..][..|b[1..]| - 1];
    } else {
      SubsequenceInit(a, b[1..]);
      assert b[..|b| - 1][1..] == b[1..][..|b[1..]| - 1];
    }
  }

  lemma {:induction false} SubsequenceShorter<T(!new)>(a: seq<T>, b: seq<T>)
    requires a != [] && Subsequence(a, b)
    ensures Subsequence(a[..|a| - 1], b)
    decreases |b|
  {
    if |a| > 1 {
      if a[0] == b[0] {
        SubsequenceShorter(a[1..], b[1..]);
        assert a[..|a| - 1][1..] == a[1..][..|a[1..]| - 1];
      } else {
        SubsequenceShorter(a, b[1..]);
      }
    }
  }

  lemma {:induction false} SubsequenceWithout<K(!new), V(!new)>(a: seq<Pair<K, V>>, b: seq<Pair<K, V>>, k: K)
    requires Subsequence(a, b)
    ensures Subsequence(Without(a, k), Without(b, k))
    decreases |b|
  {
    if a != [] {
      if a[0] == b[0] {
        SubsequenceWithout(a[1..], b[1..], k);
      } else {
        SubsequenceWithout(a, b[1..], k);
        if b[0].key != k {
          var wb := Without(b, k);
          assert wb[1..] == Without(b[1..], k);
          SubsequenceGrow(Without(a, k), wb);
        }
      }
    }
  }

  /** The inclusion between a cache of capacity `c` and one of capacity `c'` on the same run. */
  ghost predicate Included<K(!new), V(!new)>(c: nat, a: seq<Pair<K, V>>, b: seq<Pair<K, V>>) {
    Subsequence(a, b) && |a| == (if |b| < c then |b| else c)
  }

  lemma IncludedGet<K(!new), V(!new)>(c: nat, c': nat, a: seq<Pair<K, V>>, b: seq<Pair<K, V>>, k: K)
    requires 1 <= c <= c' && DistinctKeys(a) && DistinctKeys(b) && Included(c, a, b)
    ensures Included(c, AfterGet(c, a, k), AfterGet(c', b, k))
  {
    WithoutDistinct(a, k);
    WithoutDistinct(b, k);
    SubsequenceWithout(a, b, k);
    LookupNone(a, k);
    if Lookup(a, k).Some? {
      var p := Pair(k, Lookup(a, k).value);
      SubsequenceMember(a, b, p);
      LookupMember(b, p);
      assert ([p] + Without(a, k))[1..] == Without(a, k) && ([p] + Without(b, k))[1..] == Without(b, k);
    } else if Lookup(b, k).Some? {
      var moved := AfterGet(c', b, k);
      assert moved[1..] == Without(b, k);
      SubsequenceGrow(a, moved);
    }
  }

  lemma LookupMember<K(!new), V(!new)>(l: seq<Pair<K, V>>, p: Pair<K, V>)
    requires DistinctKeys(l) && p in l
    ensures Lookup(l, p.key) == Some(p.val)
  {
    var i :| 0 <= i < |l| && l[i] == p;
    LookupAt(l, i);
  }

  lemma IncludedPut<K(!new), V(!new)>(c: nat, c': nat, a: seq<Pair<K, V>>, b: seq<Pair<K, V>>, k: K, v: V)
    requires 1 <= c <= c' && DistinctKeys(a) && DistinctKeys(b) && |b| <= c' && Included(c, a, b)
    ensures Included(c, AfterPut(c, a, k, v), AfterPut(c', b, k, v))
  {
    WithoutDistinct(a, k);
    WithoutDistinct(b, k);
    SubsequenceWithout(a, b, k);
    var ga, gb := [Pair(k, v)] + Without(a, k), [Pair(k, v)] + Without(b, k);
    assert ga[1..] == Without(a, k) && gb[1..] == Without(b, k);
    assert Subsequence(ga, gb);
    LookupNone(a, k);
    if Lookup(a, k).Some? {
      SubsequenceMember(a, b, Pair(k, Lookup(a, k).value));
      LookupNone(b, k);
    } else if Lookup(b, k).Some? && |a| == |b| {
      SubsequenceSameLength(a, b);
      assert false;
    }
    if |gb| > c' {
      SubsequenceInit(ga, gb);
    } else if |ga| > c {
      SubsequenceShorter(ga, gb);
    }
  }

  /** LRU inclusion: on any run, the list of a smaller cache is a subsequence of a larger
      one's, and it is short only when it is full. So a larger cache never loses a hit. */
  lemma {:induction false} Inclusion<K(!new), V(!new)>(c: nat, c': nat, ops: seq<Op<K, V>>)
    requires c <= c'
    ensures Included(c, AfterTrace(c, ops), AfterTrace(c', ops))
    decreases ops
  {
    TraceBounded(c, ops);
    if c >= 1 && ops != [] {
      var before := ops[..|ops| - 1];
      Inclusion(c, c', before);
      TraceBounded(c, before);
      TraceBounded(c', before);
      var a, b := AfterTrace(c, before), AfterTrace(c', before);
      match ops[|ops| - 1]
      case GetOp(k) => IncludedGet(c, c', a, b, k);
      case PutOp(k, v) => IncludedPut(c, c', a, b, k, v);
      case FlushOp =>
    }
  }

  lemma LargerNeverLosesAHit<K(!new), V(!new)>(c: nat, c': nat, ops: seq<Op<K, V>>, k: K)
    requires c <= c' && Lookup(AfterTrace(c, ops), k).Some?
    ensures Lookup(AfterTrace(c', ops), k) == Lookup(AfterTrace(c, ops), k)
  {
    Inclusion(c, c', ops);
    TraceBounded(c', ops);
    var p := Pair(k, Lookup(AfterTrace(c, ops), k).value);
    LookupNone(AfterTrace(c, ops), k);
    SubsequenceMember(AfterTrace(c, ops), AfterTrace(c', ops), p);
    LookupMember(AfterTrace(c', ops), p);
  }

  /** The value of the last `Put` of a key since the last `Flush`, with no cache at all. */
  function LastPut<K(==, !new), V(!new)>(ops: seq<Op<K, V>>, k: K): Option<V>
    decreases ops
  {
    if ops == [] then None
    else match ops[|ops| - 1]
      case GetOp(_) => LastPut(ops[..|ops| - 1], k)
      case PutOp(k', v) => if k' == k then Some(v) else LastPut(ops[..|ops| - 1], k)
      case FlushOp => None
  }

  /** When a key was last read or written. */
  function LastUse<K(==, !new), V(!new)>(ops: seq<Op<K, V>>, k: K): (r: int)
    ensures -1 <= r < |ops|
    decreases ops
  {
    if ops == [] then -1
    else if (ops[|ops| - 1].GetOp? || ops[|ops| - 1].PutOp?) && ops[|ops| - 1].key == k then |ops| - 1
    else LastUse(ops[..|ops| - 1], k)
  }

  /** Every entry carries the last value put, and entries are ordered by last use. */
  ghost predicate Fresh<K(!new), V(!new)>(ops: seq<Op<K, V>>, l: seq<Pair<K, V>>) {
    && (forall i :: 0 <= i < |l| ==> LastPut(ops, l[i].key) == Some(l[i].val))
    && (forall i, j :: 0 <= i < j < |l| ==> LastUse(ops, l[i].key) > LastUse(ops, l[j].key))
  }

  /** A hit returns the last value put; and what is evicted, the back of the list, is the
      least recently used entry. */
  lemma {:induction false} HitsAreFresh<K(!new), V(!new)>(cap: int, ops: seq<Op<K, V>>)
    ensures Fresh(ops, AfterTrace(cap, ops))
    decreases ops
  {
    if ops != [] {
      var before := ops[..|ops| - 1];
      HitsAreFresh(cap, before);
      TraceBounded(cap, before);
      var l := AfterTrace(cap, before);
      match ops[|ops| - 1]
      case GetOp(k) =>
        LookupNone(l, k);
        if cap > 0 && Lookup(l, k).Some? {
          MovedFront(before, ops, l, Pair(k, Lookup(l, k).value));
        } else if cap > 0 {
          forall i | 0 <= i < |l|
            ensures LastUse(ops, l[i].key) == LastUse(before, l[i].key)
          {
          }
        }
      case PutOp(k, v) =>
        if cap > 0 {
          MovedFront(before, ops, l, Pair(k, v));
        }
      case FlushOp =>
    }
  }

  /** An operation on another key changes neither the last value nor the last use of this one. */
  lemma OtherKey<K(!new), V(!new)>(before: seq<Op<K, V>>, ops: seq<Op<K, V>>, k: K)
    requires ops != [] && before == ops[..|ops| - 1] && !ops[|ops| - 1].FlushOp? && ops[|ops| - 1].key != k
    ensures LastPut(ops, k) == LastPut(before, k)
    ensures LastUse(ops, k) == LastUse(before, k) < |ops| - 1
  {
  }

  lemma UsedNow<K(!new), V(!new)>(ops: seq<Op<K, V>>, k: K)
    requires ops != [] && !ops[|ops| - 1].FlushOp? && ops[|ops| - 1].key == k
    ensures LastUse(ops, k) == |ops| - 1
  {
  }

  lemma FreshDrop<K(!new), V(!new)>(ops: seq<Op<K, V>>, l: seq<Pair<K, V>>, at: nat)
    requires at < |l| && Fresh(ops, l)
    ensures Fresh(ops, l[..at] + l[at + 1..])
  {
    var m := l[..at] + l[at + 1..];
    assert forall i :: 0 <= i < |m| ==> m[i] == if i < at then l[i] else l[i + 1];
  }

  /** Taking a key out keeps values and order. */
  lemma FreshWithout<K(!new), V(!new)>(ops: seq<Op<K, V>>, l: seq<Pair<K, V>>, k: K)
    requires DistinctKeys(l) && Fresh(ops, l)
    ensures Fresh(ops, Without(l, k))
  {
    var at := Position(l, k);
    if at < |l| {
      WithoutAt(l, at);
      FreshDrop(ops, l, at);
    }
  }

  /** The entry just used goes in front of entries of other keys. */
  lemma FreshFront<K(!new), V(!new)>(before: seq<Op<K, V>>, ops: seq<Op<K, V>>, m: seq<Pair<K, V>>, p: Pair<K, V>)
    requires ops != [] && before == ops[..|ops| - 1] && !ops[|ops| - 1].FlushOp? && ops[|ops| - 1].key == p.key
    requires LastPut(ops, p.key) == Some(p.val)
    requires Fresh(before, m) && forall i :: 0 <= i < |m| ==> m[i].key != p.key
    ensures Fresh(ops, [p] + m)
  {
    var r := [p] + m;
    UsedNow(ops, p.key);
    forall i | 0 <= i < |r| ensures LastPut(ops, r[i].key) == Some(r[i].val) {
      if i > 0 {
        OtherKey(before, ops, m[i - 1].key);
      }
    }
    forall i, j | 0 <= i < j < |r| ensures LastUse(ops, r[i].key) > LastUse(ops, r[j].key) {
      OtherKey(before, ops, m[j - 1].key);
      if i > 0 {
        OtherKey(before, ops, m[i - 1].key);
      }
    }
  }

  lemma MovedFront<K(!new), V(!new)>(before: seq<Op<K, V>>, ops: seq<Op<K, V>>, l: seq<Pair<K, V>>, p: Pair<K, V>)
    requires ops != [] && before == ops[..|ops| - 1] && !ops[|ops| - 1].FlushOp? && ops[|ops| - 1].key == p.key
    requires LastPut(ops, p.key) == Some(p.val)
    requires DistinctKeys(l) && Fresh(before, l)
    ensures Fresh(ops, [p] + Without(l, p.key))
  {
    WithoutDistinct(l, p.key);
    FreshWithout(before, l, p.key);
    FreshFront(before, ops, Without(l, p.key), p);
  }

  // ----- What stays and what goes -----

  /** The keys read or written, and those written, by some operations. */
  function UsedKeys<K(==, !new), V(!new)>(ops: seq<Op<K, V>>): set<K>
    decreases ops
  {
    if ops == [] then {}
    else UsedKeys(ops[..|ops| - 1]) + (if ops[|ops| - 1].FlushOp? then {} else {ops[|ops| - 1].key})
  }

  function PutKeys<K(==, !new), V(!new)>(ops: seq<Op<K, V>>): set<K>
    decreases ops
  {
    if ops == [] then {}
    else PutKeys(ops[..|ops| - 1]) + (if ops[|ops| - 1].PutOp? then {ops[|ops| - 1].key} else {})
  }

  /** The entry is in the list, behind entries of these keys only. */
  ghost predicate BehindOnly<K(!new), V(!new)>(l: seq<Pair<K, V>>, p: Pair<K, V>, keys: set<K>, at: int) {
    && 0 <= at < |l| && l[at] == p
    && forall i :: 0 <= i < at ==> l[i].key in keys
  }

  lemma {:induction false} AtMostSo<K(!new), V(!new)>(l: seq<Pair<K, V>>, at: nat, keys: set<K>)
    requires DistinctKeys(l) && at <= |l| && forall i :: 0 <= i < at ==> l[i].key in keys
    ensures at <= |keys|
    decreases at
  {
    if at > 0 {
      var k := l[at - 1].key;
      AtMostSo(l, at - 1, keys - {k});
    }
  }

  /** The index in the list with its new front of what index `j` holds. */
  function Shifted(gap: nat, j: nat): nat {
    if j < gap then j + 1 else j
  }

  /** `m` is `l` with a new front, and with position `gap` cut out; read off by index. */
  ghost predicate IsFronted<K(!new), V(!new)>(l: seq<Pair<K, V>>, m: seq<Pair<K, V>>, gap: nat, q: Pair<K, V>) {
    && gap <= |l| && |m| == |l| + (if gap < |l| then 0 else 1) && |m| > 0 && m[0] == q
    && forall i :: 0 < i < |m| ==> Skip(gap, i - 1) < |l| && m[i] == l[Skip(gap, i - 1)]
  }

  lemma Fronted<K(!new), V(!new)>(l: seq<Pair<K, V>>, q: Pair<K, V>) returns (gap: nat)
    requires DistinctKeys(l)
    ensures IsFronted(l, [q] + Without(l, q.key), gap, q) && (gap < |l| ==> l[gap].key == q.key)
  {
    gap := Position(l, q.key);
    var m := [q] + Without(l, q.key);
    forall i | 0 < i < |m| ensures Skip(gap, i - 1) < |l| && m[i] == l[Skip(gap, i - 1)] {
      assert m[i] == Without(l, q.key)[i - 1];
    }
  }

  lemma FrontedAt<K(!new), V(!new)>(l: seq<Pair<K, V>>, m: seq<Pair<K, V>>, gap: nat, q: Pair<K, V>, j: nat)
    requires IsFronted(l, m, gap, q) && j < |l| && j != gap
    ensures 0 < Shifted(gap, j) < |m| && m[Shifted(gap, j)] == l[j]
  {
    assert Skip(gap, Shifted(gap, j) - 1) == j;
  }

  lemma Ahead<K(!new), V(!new)>(l: seq<Pair<K, V>>, p: Pair<K, V>, keys: set<K>, at: nat, q: Pair<K, V>)
    returns (to: nat)
    requires DistinctKeys(l) && BehindOnly(l, p, keys, at) && q.key != p.key
    ensures BehindOnly([q] + Without(l, q.key), p, keys + {q.key}, to)
  {
    var gap := Fronted(l, q);
    to := Shifted(gap, at);
    FrontedAt(l, [q] + Without(l, q.key), gap, q, at);
    KeysBefore(l, [q] + Without(l, q.key), keys, gap, at, q);
  }

  lemma KeysBefore<K(!new), V(!new)>(l: seq<Pair<K, V>>, m: seq<Pair<K, V>>, keys: set<K>, gap: nat, at: nat,
                                     q: Pair<K, V>)
    requires IsFronted(l, m, gap, q) && at < |l| && Shifted(gap, at) < |m|
    requires forall i :: 0 <= i < at ==> l[i].key in keys
    ensures forall i :: 0 <= i < Shifted(gap, at) ==> m[i].key in keys + {q.key}
  {
    forall i | 0 <= i < Shifted(gap, at) ensures m[i].key in keys + {q.key} {
      if i > 0 {
        assert Skip(gap, i - 1) < at;
      }
    }
  }

  /** A value put stays, and is hit, as long as fewer than `cap` other keys have been read or written since. */
  lemma {:induction false} RecentlyPutStays<K(!new), V(!new)>(cap: int, before: seq<Op<K, V>>, k: K, v: V,
                                                              after: seq<Op<K, V>>)
    requires forall i :: 0 <= i < |after| ==> !after[i].FlushOp? && (after[i].PutOp? ==> after[i].key != k)
    requires |UsedKeys(after) - {k}| < cap
    ensures Lookup(AfterTrace(cap, before + [PutOp(k, v)] + after), k) == Some(v)
  {
    var at := StaysBehind(cap, before, k, v, after);
    var l := AfterTrace(cap, before + [PutOp(k, v)] + after);
    TraceBounded(cap, before + [PutOp(k, v)] + after);
    LookupAt(l, at);
  }

  lemma {:induction false} StaysBehind<K(!new), V(!new)>(cap: int, before: seq<Op<K, V>>, k: K, v: V,
                                                         after: seq<Op<K, V>>)
    returns (at: nat)
    requires forall i :: 0 <= i < |after| ==> !after[i].FlushOp? && (after[i].PutOp? ==> after[i].key != k)
    requires |UsedKeys(after) - {k}| < cap
    ensures BehindOnly(AfterTrace(cap, before + [PutOp(k, v)] + after), Pair(k, v), UsedKeys(after) - {k}, at)
    decreases after
  {
    var began := before + [PutOp(k, v)];
    if after == [] {
      assert began + after == began;
      TraceSnoc(cap, before, [PutOp(k, v)]);
      assert before + [] == before;
      at := 0;
    } else {
      var init, op := after[..|after| - 1], after[|after| - 1];
      FewerUsed(init, op, after, k);
      at := StaysBehind(cap, before, k, v, init);
      at := StaysOneMore(cap, began, after, Pair(k, v), at);
    }
  }

  lemma StaysOneMore<K(!new), V(!new)>(cap: int, began: seq<Op<K, V>>, after: seq<Op<K, V>>, p: Pair<K, V>, at: nat)
    returns (to: nat)
    requires after != [] && cap > 0
    requires var init, op := after[..|after| - 1], after[|after| - 1];
             && BehindOnly(AfterTrace(cap, began + init), p, UsedKeys(init) - {p.key}, at)
             && !op.FlushOp? && (op.PutOp? ==> op.key != p.key) && |UsedKeys(after) - {p.key}| < cap
    ensures BehindOnly(AfterTrace(cap, began + after), p, UsedKeys(after) - {p.key}, to)
  {
    var init, op := after[..|after| - 1], after[|after| - 1];
    FewerUsed(init, op, after, p.key);
    TraceBounded(cap, began + init);
    TraceSnoc(cap, began, after);
    to := UseKeeps(cap, AfterTrace(cap, began + init), p, UsedKeys(init) - {p.key}, at, op);
  }

  lemma TraceSnoc<K(!new), V(!new)>(cap: int, before: seq<Op<K, V>>, after: seq<Op<K, V>>)
    requires after != []
    ensures AfterTrace(cap, before + after)
            == AfterOp(cap, AfterTrace(cap, before + after[..|after| - 1]), after[|after| - 1])
  {
    assert (before + after)[..|before + after| - 1] == before + after[..|after| - 1];
  }

  lemma FewerUsed<K(!new), V(!new)>(init: seq<Op<K, V>>, op: Op<K, V>, after: seq<Op<K, V>>, k: K)
    requires after != [] && init == after[..|after| - 1] && op == after[|after| - 1] && !op.FlushOp?
    ensures UsedKeys(after) == UsedKeys(init) + {op.key}
    ensures |UsedKeys(init) - {k}| <= |UsedKeys(after) - {k}|
    ensures UsedKeys(after) - {k} == UsedKeys(init) - {k} + ({op.key} - {k})
  {
    OneMore(UsedKeys(init), op.key, k);
  }

  lemma OneMore<K(!new)>(keys: set<K>, x: K, k: K)
    ensures keys + {x} - {k} == keys - {k} + ({x} - {k})
    ensures |keys - {k}| <= |keys + {x} - {k}|
  {
    Smaller(keys - {k}, keys + {x} - {k});
  }

  lemma {:induction false} Smaller<K(!new)>(a: set<K>, b: set<K>)
    requires a <= b
    ensures |a| <= |b|
    decreases |a|
  {
    if a != {} {
      var x :| x in a;
      Smaller(a - {x}, b - {x});
    }
  }

  /** One read or write of a key keeps the entry in the list, when it is not behind `cap` others. */
  lemma UseKeeps<K(!new), V(!new)>(cap: int, l: seq<Pair<K, V>>, p: Pair<K, V>, keys: set<K>, at: nat, op: Op<K, V>)
    returns (to: nat)
    requires DistinctKeys(l) && |l| <= cap && BehindOnly(l, p, keys, at) && p.key !in keys
    requires !op.FlushOp? && (op.PutOp? ==> op.key != p.key) && |keys + ({op.key} - {p.key})| < cap
    ensures BehindOnly(AfterOp(cap, l, op), p, keys + ({op.key} - {p.key}), to)
  {
    LookupAt(l, at);
    LookupNone(l, op.key);
    assert op.key != p.key ==> {op.key} - {p.key} == {op.key};
    to := at;
    if op.key == p.key {
      to := 0;
    } else if op.PutOp? {
      to := Ahead(l, p, keys, at, Pair(op.key, op.val));
      StaysUncut(cap, l, p, keys + {op.key}, to, Pair(op.key, op.val));
    } else if Lookup(l, op.key).Some? {
      to := Ahead(l, p, keys, at, Pair(op.key, Lookup(l, op.key).value));
    }
  }

  lemma StaysUncut<K(!new), V(!new)>(cap: int, l: seq<Pair<K, V>>, p: Pair<K, V>, keys: set<K>, to: nat, q: Pair<K, V>)
    requires DistinctKeys(l) && |l| <= cap && |keys| < cap
    requires BehindOnly([q] + Without(l, q.key), p, keys, to)
    ensures BehindOnly(AfterPut(cap, l, q.key, q.val), p, keys, to)
  {
    Refronted(l, q);
    AtMostSo([q] + Without(l, q.key), to, keys);
  }

  /** Every one of these keys is in front of the entry of k, when there is one. */
  ghost predicate AllAhead<K(!new), V(!new)>(l: seq<Pair<K, V>>, k: K, keys: set<K>) {
    forall at, d :: 0 <= at < |l| && l[at].key == k && d in keys ==> exists i :: 0 <= i < at && l[i].key == d
  }

  /** A key is gone once `cap` others have been put since its last use. */
  lemma {:induction false} PutsEvict<K(!new), V(!new)>(cap: int, before: seq<Op<K, V>>, k: K, after: seq<Op<K, V>>)
    requires cap >= 0 && |PutKeys(after)| >= cap
    requires forall i :: 0 <= i < |after| ==> after[i].FlushOp? || after[i].key != k
    ensures Lookup(AfterTrace(cap, before + after), k).None?
  {
    var l := AfterTrace(cap, before + after);
    KeepsAhead(cap, before, k, after);
    TraceBounded(cap, before + after);
    LookupNone(l, k);
    forall at | 0 <= at < |l| ensures l[at].key != k {
      if l[at].key == k {
        EnoughAhead(l, at, k, PutKeys(after));
      }
    }
  }

  lemma {:induction false} EnoughAhead<K(!new), V(!new)>(l: seq<Pair<K, V>>, at: nat, k: K, keys: set<K>)
    requires at < |l| && forall d :: d in keys ==> exists i :: 0 <= i < at && l[i].key == d
    ensures |keys| <= at < |l|
  {
    var front := set i | 0 <= i < at :: l[i].key;
    assert forall i :: 0 <= i < at ==> l[i].key in front;
    Smaller(keys, front);
    FrontSize(l, at, front);
  }

  lemma {:induction false} FrontSize<K(!new), V(!new)>(l: seq<Pair<K, V>>, at: nat, front: set<K>)
    requires at <= |l| && forall d :: d in front ==> exists i :: 0 <= i < at && l[i].key == d
    ensures |front| <= at
    decreases at
  {
    if at > 0 {
      var k := l[at - 1].key;
      FrontSize(l, at - 1, front - {k});
      Smaller(front, front - {k} + {k});
    } else {
      assert front == {};
    }
  }

  lemma {:induction false} KeepsAhead<K(!new), V(!new)>(cap: int, before: seq<Op<K, V>>, k: K, after: seq<Op<K, V>>)
    requires forall i :: 0 <= i < |after| ==> after[i].FlushOp? || after[i].key != k
    ensures AllAhead(AfterTrace(cap, before + after), k, PutKeys(after))
    decreases after
  {
    if after == [] {
      assert before + after == before;
    } else {
      var init, op := after[..|after| - 1], after[|after| - 1];
      KeepsAhead(cap, before, k, init);
      TraceBounded(cap, before + init);
      TraceSnoc(cap, before, after);
      UseAhead(cap, AfterTrace(cap, before + init), k, PutKeys(init), op);
    }
  }

  lemma UseAhead<K(!new), V(!new)>(cap: int, l: seq<Pair<K, V>>, k: K, keys: set<K>, op: Op<K, V>)
    requires DistinctKeys(l) && |l| <= (if cap < 0 then 0 else cap) && AllAhead(l, k, keys)
    requires op.FlushOp? || op.key != k
    ensures AllAhead(AfterOp(cap, l, op), k, keys + (if op.PutOp? then {op.key} else {}))
  {
    if cap > 0 && !op.FlushOp? {
      LookupNone(l, op.key);
      if op.PutOp? {
        PutAhead(cap, l, k, keys, Pair(op.key, op.val));
      } else if Lookup(l, op.key).Some? {
        FrontAhead(l, k, keys, Pair(op.key, Lookup(l, op.key).value));
      }
    }
  }

  lemma PutAhead<K(!new), V(!new)>(cap: int, l: seq<Pair<K, V>>, k: K, keys: set<K>, q: Pair<K, V>)
    requires cap > 0 && DistinctKeys(l) && AllAhead(l, k, keys) && q.key != k
    ensures AllAhead(AfterPut(cap, l, q.key, q.val), k, keys + {q.key})
  {
    FrontAhead(l, k, keys, q);
    CutAhead([q] + Without(l, q.key), k, keys + {q.key});
  }

  /** The back of the list may go. */
  lemma CutAhead<K(!new), V(!new)>(l: seq<Pair<K, V>>, k: K, keys: set<K>)
    requires l != [] && AllAhead(l, k, keys)
    ensures AllAhead(l[..|l| - 1], k, keys)
  {
    var m := l[..|l| - 1];
    forall at, d | 0 <= at < |m| && m[at].key == k && d in keys ensures exists i :: 0 <= i < at && m[i].key == d {
      var i :| 0 <= i < at && l[i].key == d;
      assert m[i].key == d;
    }
  }

  lemma FrontAhead<K(!new), V(!new)>(l: seq<Pair<K, V>>, k: K, keys: set<K>, q: Pair<K, V>)
    requires DistinctKeys(l) && AllAhead(l, k, keys) && q.key != k
    ensures AllAhead([q] + Without(l, q.key), k, keys + {q.key})
  {
    var gap := Fronted(l, q);
    var m := [q] + Without(l, q.key);
    forall at, d | 0 <= at < |m| && m[at].key == k && d in keys + {q.key}
      ensures exists i :: 0 <= i < at && m[i].key == d
    {
      assert m[0].key == q.key;
      if d != q.key {
        var was := Skip(gap, at - 1);
        var i :| 0 <= i < was && l[i].key == d;
        FrontedAt(l, m, gap, q, i);
        assert Shifted(gap, i) < at;
      }
    }
  }
}
