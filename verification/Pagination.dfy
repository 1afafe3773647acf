/** Cursor pagination (internal/engine/list_documents.go, internal/engine/list_chunks.go) and the loops
    that drain every page (internal/engine/bridge_source.go). */
module Pagination {
  import opened Bytes
  import opened Tokens

  // ----- Resume keys -----

  /** A place in the total order: a time or an index, then an id. */
  datatype Key = Key(ord: int, id: Bytes)

  predicate KeyLess(a: Key, b: Key) {
    a.ord < b.ord || (a.ord == b.ord && Less(a.id, b.id))
  }

  lemma KeyTotal(a: Key, b: Key)
    ensures KeyLess(a, b) || a == b || KeyLess(b, a)
  {
    LessTotal(a.id, b.id);
  }

  lemma KeyAsymmetric(a: Key, b: Key)
    ensures KeyLess(a, b) ==> !KeyLess(b, a) && a != b
  {
    if Less(a.id, b.id) {
      LessAsymmetric(a.id, b.id);
    }
  }

  lemma KeyTransitive(a: Key, b: Key, c: Key)
    ensures KeyLess(a, b) && KeyLess(b, c) ==> KeyLess(a, c)
  {
    if Less(a.id, b.id) && Less(b.id, c.id) {
      LessTransitive(a.id, b.id, c.id);
    }
  }

  datatype Entry<T> = Entry(key: Key, value: T)

  ghost predicate Sorted<T>(es: seq<Entry<T>>) {
    forall i, j :: 0 <= i < j < |es| ==> KeyLess(es[i].key, es[j].key)
  }

  ghost predicate DistinctKeys<T>(es: seq<Entry<T>>) {
    forall i, j :: 0 <= i < j < |es| ==> es[i].key != es[j].key
  }

  ghost predicate Past<T>(resume: Option<Key>, e: Entry<T>) {
    resume.Some? ==> KeyLess(resume.value, e.key)
  }

  /** Insertion by key, as a stable sort of distinct keys. */
  method SortEntries<T>(es: seq<Entry<T>>) returns (sorted: seq<Entry<T>>)
    requires DistinctKeys(es)
    ensures Sorted(sorted) && multiset(sorted) == multiset(es)
  {
    sorted := [];
    for i := 0 to |es|
      invariant Sorted(sorted) && multiset(sorted) == multiset(es[..i])
    {
      assert es[..i + 1] == es[..i] + [es[i]];
      KeyIsNew(es, i, sorted);
      sorted := InsertEntry(sorted, es[i]);
    }
    assert es[..|es|] == es;
  }

  lemma KeyIsNew<T>(es: seq<Entry<T>>, i: nat, sorted: seq<Entry<T>>)
    requires DistinctKeys(es) && i < |es| && multiset(sorted) == multiset(es[..i])
    ensures forall j :: 0 <= j < |sorted| ==> sorted[j].key != es[i].key
  {
    forall j | 0 <= j < |sorted| ensures sorted[j].key != es[i].key {
      assert sorted[j] in multiset(es[..i]);
      var k :| 0 <= k < i && es[..i][k] == sorted[j];
    }
  }

  method InsertEntry<T>(s: seq<Entry<T>>, e: Entry<T>) returns (r: seq<Entry<T>>)
    requires Sorted(s) && forall j :: 0 <= j < |s| ==> s[j].key != e.key
    ensures Sorted(r) && multiset(r) == multiset(s) + multiset{e}
  {
    var k := |s|;
    while k > 0 && KeyLess(e.key, s[k - 1].key)
      invariant 0 <= k <= |s|
      invariant forall j :: k <= j < |s| ==> KeyLess(e.key, s[j].key)
    {
      k := k - 1;
    }
    InsertedSorted(s, k, e);
    r := InsertAt(s, k, e);
  }

  function InsertAt<T>(s: seq<Entry<T>>, k: nat, e: Entry<T>): (r: seq<Entry<T>>)
    requires k <= |s|
    ensures multiset(r) == multiset(s) + multiset{e}
  {
    assert s == s[..k] + s[k..];
    s[..k] + [e] + s[k..]
  }

  lemma InsertedSorted<T>(s: seq<Entry<T>>, k: nat, e: Entry<T>)
    requires Sorted(s) && k <= |s| && forall j :: 0 <= j < |s| ==> s[j].key != e.key
    requires forall j :: k <= j < |s| ==> KeyLess(e.key, s[j].key)
    requires k > 0 ==> !KeyLess(e.key, s[k - 1].key)
    ensures Sorted(InsertAt(s, k, e))
  {
    var r := InsertAt(s, k, e);
    forall j | 0 <= j < k ensures KeyLess(s[j].key, e.key) {
      KeyTotal(s[k - 1].key, e.key);
      KeyTransitive(s[j].key, s[k - 1].key, e.key);
    }
    forall i, j | 0 <= i < j < |r| ensures KeyLess(r[i].key, r[j].key) {
      assert r[i] == if i < k then s[i] else if i == k then e else s[i - 1];
      assert r[j] == if j < k then s[j] else if j == k then e else s[j - 1];
    }
  }

  // ----- One page -----

  /** What is left of a listing after a resume point. */
  function Skip<T>(sorted: seq<Entry<T>>, resume: Option<Key>): seq<Entry<T>>
    decreases |sorted|
  {
    if sorted != [] && resume.Some? && !KeyLess(resume.value, sorted[0].key) then Skip(sorted[1..], resume) else sorted
  }

  function Take<T>(es: seq<Entry<T>>, size: nat): (r: seq<Entry<T>>) {
    if size < |es| then es[..size] else es
  }

  method CutPage<T>(sorted: seq<Entry<T>>, resume: Option<Key>, size: nat) returns (page: seq<Entry<T>>, more: bool)
    requires size > 0
    ensures page == Take(Skip(sorted, resume), size) && (more <==> size < |Skip(sorted, resume)|)
  {
    var start := 0;
    if resume.Some? {
      while start < |sorted|
        invariant 0 <= start <= |sorted| && Skip(sorted, resume) == Skip(sorted[start..], resume)
      {
        if KeyLess(resume.value, sorted[start].key) {
          break;
        }
        assert sorted[start..][1..] == sorted[start + 1..];
        start := start + 1;
      }
    }
    assert sorted[0..] == sorted && sorted[|sorted|..] == [];
    var end := start + size;
    if end > |sorted| {
      end := |sorted|;
    }
    page := sorted[start..end];
    assert page == Take(sorted[start..], size);
    more := end < |sorted|;
  }

  /** In a sorted listing, what is left is exactly what lies past the resume point. */
  lemma {:induction false} SkipIsPast<T(!new)>(sorted: seq<Entry<T>>, resume: Option<Key>)
    requires Sorted(sorted)
    ensures forall e :: e in Skip(sorted, resume) <==> e in sorted && Past(resume, e)
    ensures Sorted(Skip(sorted, resume))
    decreases |sorted|
  {
    if sorted != [] && resume.Some? {
      var head, tail := sorted[0], sorted[1..];
      if KeyLess(resume.value, head.key) {
        forall j | 0 <= j < |sorted| ensures Past(resume, sorted[j]) {
          KeyTransitive(resume.value, head.key, sorted[j].key);
        }
      } else {
        SkipIsPast(tail, resume);
        assert sorted == [head] + tail;
      }
    }
  }

  // ----- Draining while the corpus changes -----

  /** The listing as one page request finds it, and the page size of that request. */
  datatype Request<T> = Request(listing: seq<Entry<T>>, size: nat)

  function PageFor<T>(q: Request<T>, resume: Option<Key>): seq<Entry<T>> {
    Take(Skip(q.listing, resume), q.size)
  }

  predicate MoreAfter<T>(q: Request<T>, resume: Option<Key>) {
    q.size < |Skip(q.listing, resume)|
  }

  /** The pages that a chain of requests returns, each resuming after the last entry of the one before. */
  function Pages<T>(qs: seq<Request<T>>, resume: Option<Key>): seq<Entry<T>>
    decreases qs
  {
    if qs == [] then []
    else
      var page := PageFor(qs[0], resume);
      if MoreAfter(qs[0], resume) && page != [] then page + Pages(qs[1..], Some(page[|page| - 1].key)) else page
  }

  /** The chain ends with a page that has no successor. */
  predicate Drained<T>(qs: seq<Request<T>>, resume: Option<Key>)
    decreases qs
  {
    && qs != []
    && (MoreAfter(qs[0], resume) && PageFor(qs[0], resume) != [] ==>
          Drained(qs[1..], Some(PageFor(qs[0], resume)[|PageFor(qs[0], resume)| - 1].key)))
  }

  ghost predicate Wellformed<T>(qs: seq<Request<T>>) {
    forall i :: 0 <= i < |qs| ==> Sorted(qs[i].listing) && qs[i].size > 0
  }

  lemma PagePast<T(!new)>(q: Request<T>, resume: Option<Key>)
    requires Sorted(q.listing) && q.size > 0
    ensures Sorted(PageFor(q, resume))
    ensures forall e :: e in PageFor(q, resume) ==> e in q.listing && Past(resume, e)
    ensures MoreAfter(q, resume) ==> PageFor(q, resume) != []
  {
    SkipIsPast(q.listing, resume);
    assert forall e :: e in PageFor(q, resume) ==> e in Skip(q.listing, resume);
  }

  /** Whatever is inserted or deleted between requests, the keys returned strictly increase. */
  lemma {:induction false} KeysIncrease<T(!new)>(qs: seq<Request<T>>, resume: Option<Key>)
    requires Wellformed(qs)
    ensures Sorted(Pages(qs, resume))
    ensures forall e :: e in Pages(qs, resume) ==> Past(resume, e)
    decreases qs
  {
    if qs != [] {
      var page := PageFor(qs[0], resume);
      PagePast(qs[0], resume);
      if MoreAfter(qs[0], resume) {
        var last := page[|page| - 1];
        var rest := Pages(qs[1..], Some(last.key));
        KeysIncrease(qs[1..], Some(last.key));
        AppendSorted(page, rest, resume);
      }
    }
  }

  lemma AppendSorted<T(!new)>(page: seq<Entry<T>>, rest: seq<Entry<T>>, resume: Option<Key>)
    requires page != [] && Sorted(page) && Sorted(rest)
    requires forall e :: e in page ==> Past(resume, e)
    requires forall e :: e in rest ==> Past(Some(page[|page| - 1].key), e)
    ensures Sorted(page + rest) && forall e :: e in page + rest ==> Past(resume, e)
  {
    var all, last := page + rest, page[|page| - 1];
    assert last in page;
    forall i, j | 0 <= i < j < |all| ensures KeyLess(all[i].key, all[j].key) {
      if i < |page| <= j {
        assert all[j] in rest;
        KeyTransitive(page[i].key, last.key, all[j].key);
      }
    }
    forall e | e in all ensures Past(resume, e) {
      if e in rest && resume.Some? {
        KeyTransitive(resume.value, last.key, e.key);
      }
    }
  }

  /** An entry that every listing holds is returned by any chain that drains. */
  lemma {:induction false} StableIsReturned<T(!new)>(qs: seq<Request<T>>, resume: Option<Key>, e: Entry<T>)
    requires Wellformed(qs) && Drained(qs, resume) && Past(resume, e)
    requires forall i :: 0 <= i < |qs| ==> e in qs[i].listing
    ensures e in Pages(qs, resume)
    decreases qs
  {
    var page, left := PageFor(qs[0], resume), Skip(qs[0].listing, resume);
    PagePast(qs[0], resume);
    SkipIsPast(qs[0].listing, resume);
    if MoreAfter(qs[0], resume) && e !in page {
      var last := page[|page| - 1];
      var k :| 0 <= k < |left| && left[k] == e;
      assert k >= |page|;
      assert left[|page| - 1] == last;
      StableIsReturned(qs[1..], Some(last.key), e);
    }
  }

  /** An item that is present, matching and unchanged throughout is returned exactly once, and nothing
      is returned twice. */
  lemma {:induction false} StableExactlyOnce<T(!new)>(qs: seq<Request<T>>, e: Entry<T>)
    requires Wellformed(qs) && Drained(qs, None)
    requires forall i :: 0 <= i < |qs| ==> e in qs[i].listing
    ensures multiset(Pages(qs, None))[e] == 1
    ensures forall x :: multiset(Pages(qs, None))[x] <= 1
  {
    StableIsReturned(qs, None, e);
    KeysIncrease(qs, None);
    var all := Pages(qs, None);
    forall x ensures multiset(all)[x] <= 1 {
      OnceInSorted(all, x);
    }
  }

  lemma {:induction false} OnceInSorted<T(!new)>(s: seq<Entry<T>>, x: Entry<T>)
    requires Sorted(s)
    ensures multiset(s)[x] <= 1
    decreases |s|
  {
    if s != [] {
      var rest := s[1..];
      assert s == [s[0]] + rest;
      OnceInSorted(rest, x);
      forall j | 0 <= j < |rest| ensures rest[j] != s[0] {
        KeyAsymmetric(s[0].key, s[j + 1].key);
      }
      assert x == s[0] ==> x !in rest;
    }
  }

  /** Over a corpus that does not change, the pages concatenate to exactly the listing. */
  lemma {:induction false} FixedCorpus<T(!new)>(qs: seq<Request<T>>, resume: Option<Key>, listing: seq<Entry<T>>)
    requires Wellformed(qs) && Drained(qs, resume) && forall i :: 0 <= i < |qs| ==> qs[i].listing == listing
    ensures Pages(qs, resume) == Skip(listing, resume)
    decreases qs
  {
    var page, left := PageFor(qs[0], resume), Skip(listing, resume);
    PagePast(qs[0], resume);
    if MoreAfter(qs[0], resume) {
      SkipFurther(listing, resume, |page|);
      FixedCorpus(qs[1..], Some(page[|page| - 1].key), listing);
      assert left == page + left[|page|..];
    }
  }

  /** Resuming after the n-th entry left gives what follows it. */
  lemma {:induction false} SkipFurther<T(!new)>(sorted: seq<Entry<T>>, resume: Option<Key>, n: nat)
    requires Sorted(sorted) && 0 < n <= |Skip(sorted, resume)|
    ensures Skip(sorted, Some(Skip(sorted, resume)[n - 1].key)) == Skip(sorted, resume)[n..]
    decreases |sorted|
  {
    var head, tail := sorted[0], sorted[1..];
    if resume.Some? && !KeyLess(resume.value, head.key) {
      var e := Skip(sorted, resume)[n - 1];
      SkipIsPast(tail, resume);
      assert e in tail;
      KeyAsymmetric(head.key, e.key);
      SkipFurther(tail, resume, n);
    } else {
      SkipAt(sorted, n);
    }
  }

  lemma {:induction false} SkipAt<T>(sorted: seq<Entry<T>>, n: nat)
    requires Sorted(sorted) && 0 < n <= |sorted|
    ensures Skip(sorted, Some(sorted[n - 1].key)) == sorted[n..]
    decreases n
  {
    var key := sorted[n - 1].key;
    KeyAsymmetric(sorted[0].key, key);
    KeyAsymmetric(key, key);
    if n > 1 {
      SkipAt(sorted[1..], n - 1);
      assert sorted[1..][n - 1..] == sorted[n..];
    } else if |sorted| > 1 {
      assert sorted[1..][0] == sorted[1];
    }
  }
}
