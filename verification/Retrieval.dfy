/** Retrieval (internal/index/retrieval.go, internal/index/vector.go): rank fusion, one hit per
    document, and reranking that degrades to the plain result. */
module Retrieval {
  import opened Bytes
  import opened Ranking

  datatype Result<T> = Ok(value: T) | Err(error: string)

  // ----- Reciprocal rank fusion -----

  /** What one ranked list gives a chunk: 1 / (k + rank) for every rank it has there, ranks from 1. */
  function ListScore(list: seq<Hit>, k: nat, id: Bytes): real
    decreases list
  {
    if list == [] then 0.0
    else
      var n := |list|;
      ListScore(list[..n - 1], k, id) + (if list[n - 1].id == id then 1.0 / (k + n) as real else 0.0)
  }

  function FusedScore(lists: seq<seq<Hit>>, k: nat, id: Bytes): real
    decreases |lists|
  {
    if lists == [] then 0.0
    else FusedScore(lists[..|lists| - 1], k, id) + ListScore(lists[|lists| - 1], k, id)
  }

  ghost predicate Lists(list: seq<Hit>, id: Bytes) {
    exists i :: 0 <= i < |list| && list[i].id == id
  }

  ghost predicate Appears(lists: seq<seq<Hit>>, id: Bytes) {
    exists l :: 0 <= l < |lists| && Lists(lists[l], id)
  }

  /** The fusion of ranked lists: every chunk of any list once, by total score. */
  ghost predicate IsFusion(out: seq<Hit>, lists: seq<seq<Hit>>, k: nat) {
    && StrictlyRanked(out)
    && forall h: Hit :: h in out <==> Appears(lists, h.id) && h.score == FusedScore(lists, k, h.id)
  }

  ghost predicate Tallied(scores: map<Bytes, real>, lists: seq<seq<Hit>>, l: nat, r: nat, k: nat)
    requires l <= |lists| && (l < |lists| ==> r <= |lists[l]|) && (l == |lists| ==> r == 0)
  {
    var part := if l < |lists| then lists[l][..r] else [];
    forall id :: TalliedAt(scores, lists[..l], part, k, id)
  }

  ghost predicate TalliedAt(scores: map<Bytes, real>, whole: seq<seq<Hit>>, part: seq<Hit>, k: nat, id: Bytes) {
    && (id in scores <==> Appears(whole, id) || Lists(part, id))
    && (id in scores ==> scores[id] == FusedScore(whole, k, id) + ListScore(part, k, id))
  }

  method ReciprocalRankFusionN(lists: seq<seq<Hit>>, k: nat) returns (out: seq<Hit>)
    ensures IsFusion(out, lists, k)
  {
    var scores: map<Bytes, real> := map[];
    for l := 0 to |lists|
      invariant Tallied(scores, lists, l, 0, k)
    {
      for r := 0 to |lists[l]|
        invariant Tallied(scores, lists, l, r, k)
      {
        RankTallied(scores, lists, l, r, k);
        scores := AddTo(scores, lists[l][r].id, 1.0 / (k + r + 1) as real);
      }
      ListTallied(scores, lists, l, k);
    }
    assert lists[..|lists|] == lists;
    assert forall id :: TalliedAt(scores, lists, [], k, id);
    out := RankTable(scores);
  }

  lemma {:induction false} ScoreOfAbsent(list: seq<Hit>, k: nat, id: Bytes)
    requires !Lists(list, id)
    ensures ListScore(list, k, id) == 0.0
    decreases |list|
  {
    if list != [] {
      var n := |list|;
      assert list[n - 1].id != id;
      assert forall i :: 0 <= i < n - 1 ==> list[..n - 1][i] == list[i];
      ScoreOfAbsent(list[..n - 1], k, id);
    }
  }

  lemma {:induction false} FusedOfAbsent(lists: seq<seq<Hit>>, k: nat, id: Bytes)
    requires !Appears(lists, id)
    ensures FusedScore(lists, k, id) == 0.0
    decreases |lists|
  {
    if lists != [] {
      var n := |lists|;
      assert !Lists(lists[n - 1], id);
      ScoreOfAbsent(lists[n - 1], k, id);
      assert forall l :: 0 <= l < n - 1 ==> lists[..n - 1][l] == lists[l];
      FusedOfAbsent(lists[..n - 1], k, id);
    }
  }

  lemma ListsSnoc(list: seq<Hit>, h: Hit, id: Bytes)
    ensures Lists(list + [h], id) <==> Lists(list, id) || h.id == id
  {
    var more := list + [h];
    if h.id == id {
      assert more[|list|].id == id;
    }
    if Lists(list, id) {
      var i :| 0 <= i < |list| && list[i].id == id;
      assert more[i].id == id;
    }
  }

  lemma AppearsSnoc(lists: seq<seq<Hit>>, list: seq<Hit>, id: Bytes)
    ensures Appears(lists + [list], id) <==> Appears(lists, id) || Lists(list, id)
  {
    var more := lists + [list];
    if Lists(list, id) {
      assert Lists(more[|lists|], id);
    }
    if Appears(lists, id) {
      var l :| 0 <= l < |lists| && Lists(lists[l], id);
      assert Lists(more[l], id);
    }
  }

  lemma RankTallied(scores: map<Bytes, real>, lists: seq<seq<Hit>>, l: nat, r: nat, k: nat)
    requires l < |lists| && r < |lists[l]| && Tallied(scores, lists, l, r, k)
    ensures Tallied(AddTo(scores, lists[l][r].id, 1.0 / (k + r + 1) as real), lists, l, r + 1, k)
  {
    var part, h := lists[l][..r], lists[l][r];
    assert lists[l][..r + 1] == part + [h] && (part + [h])[..r] == part;
    var next := AddTo(scores, h.id, 1.0 / (k + r + 1) as real);
    forall id ensures TalliedAt(next, lists[..l], part + [h], k, id) {
      assert TalliedAt(scores, lists[..l], part, k, id);
      ListsSnoc(part, h, id);
      if id !in scores {
        ScoreOfAbsent(part, k, id);
        FusedOfAbsent(lists[..l], k, id);
      }
    }
  }

  lemma ListTallied(scores: map<Bytes, real>, lists: seq<seq<Hit>>, l: nat, k: nat)
    requires l < |lists| && Tallied(scores, lists, l, |lists[l]|, k)
    ensures Tallied(scores, lists, l + 1, 0, k)
  {
    var list := lists[l];
    assert list[..|list|] == list;
    assert lists[..l + 1] == lists[..l] + [list] && lists[..l + 1][..l] == lists[..l];
    forall id ensures TalliedAt(scores, lists[..l] + [list], [], k, id) {
      assert TalliedAt(scores, lists[..l], list, k, id);
      AppearsSnoc(lists[..l], list, id);
    }
  }

  // ----- What fusion guarantees -----

  /** A chunk at the r-th place of a list, counted from 1, gets 1 / (k + r) for it. */
  lemma {:induction false} RankScore(list: seq<Hit>, k: nat, r: nat)
    requires DistinctIds(list) && 1 <= r <= |list|
    ensures ListScore(list, k, list[r - 1].id) == 1.0 / (k + r) as real
    decreases |list|
  {
    var n := |list| - 1;
    if r == n + 1 {
      ScoreOfAbsent(list[..n], k, list[n].id);
    } else {
      RankScore(list[..n], k, r);
      assert list[..n][r - 1] == list[r - 1];
    }
  }

  /** At places r and s of two lists it scores the sum, and at place r of one list alone only that. */
  lemma TwoRankScore(a: seq<Hit>, b: seq<Hit>, k: nat, r: nat, s: nat, id: Bytes)
    requires DistinctIds(a) && DistinctIds(b) && 1 <= r <= |a| && a[r - 1].id == id
    ensures 1 <= s <= |b| && b[s - 1].id == id ==>
              FusedScore([a, b], k, id) == 1.0 / (k + r) as real + 1.0 / (k + s) as real
    ensures !Lists(b, id) ==> FusedScore([a, b], k, id) == 1.0 / (k + r) as real
  {
    assert [a, b][..1] == [a] && [a][..0] == [];
    assert FusedScore([a], k, id) == FusedScore([], k, id) + ListScore(a, k, id);
    RankScore(a, k, r);
    if !Lists(b, id) {
      ScoreOfAbsent(b, k, id);
    }
    if 1 <= s <= |b| && b[s - 1].id == id {
      RankScore(b, k, s);
    }
  }

  lemma {:induction false} ScoreWithout(lists: seq<seq<Hit>>, j: nat, k: nat, id: Bytes)
    requires j < |lists|
    ensures FusedScore(lists, k, id) == FusedScore(lists[..j] + lists[j + 1..], k, id) + ListScore(lists[j], k, id)
    decreases |lists|
  {
    var n := |lists| - 1;
    var rest := lists[..j] + lists[j + 1..];
    if j == n {
      assert rest == lists[..n];
    } else {
      assert lists[..n][..j] + lists[..n][j + 1..] == rest[..n - 1] && rest[n - 1] == lists[n];
      ScoreWithout(lists[..n], j, k, id);
    }
  }

  lemma {:induction false} ScoreOfPermuted(a: seq<seq<Hit>>, b: seq<seq<Hit>>, k: nat, id: Bytes)
    requires multiset(a) == multiset(b)
    ensures FusedScore(a, k, id) == FusedScore(b, k, id)
    decreases |a|
  {
    assert |a| == |multiset(a)| == |multiset(b)| == |b|;
    if a != [] {
      var n := |a| - 1;
      var j := SameList(a, b);
      ScoreWithout(b, j, k, id);
      ScoreOfPermuted(a[..n], b[..j] + b[j + 1..], k, id);
    }
  }

  /** Where the last of some lists is among the same lists in another order. */
  lemma SameList(a: seq<seq<Hit>>, b: seq<seq<Hit>>) returns (j: nat)
    requires a != [] && multiset(a) == multiset(b)
    ensures j < |b| && b[j] == a[|a| - 1] && multiset(a[..|a| - 1]) == multiset(b[..j] + b[j + 1..])
  {
    var n := |a| - 1;
    assert a == a[..n] + [a[n]];
    assert a[n] in multiset(b);
    j :| 0 <= j < |b| && b[j] == a[n];
    assert b == b[..j] + [b[j]] + b[j + 1..];
    assert multiset(a[..n]) == multiset(a) - multiset{a[n]};
    assert multiset(b[..j] + b[j + 1..]) == multiset(b) - multiset{b[j]};
  }

  /** The order in which the lists are given does not matter. */
  lemma FusionIgnoresOrder(a: seq<seq<Hit>>, b: seq<seq<Hit>>, k: nat, x: seq<Hit>, y: seq<Hit>)
    requires multiset(a) == multiset(b) && IsFusion(x, a, k) && IsFusion(y, b, k)
    ensures x == y
  {
    forall h: Hit ensures h in x <==> h in y {
      ScoreOfPermuted(a, b, k, h.id);
      AppearsPermuted(a, b, h.id);
      AppearsPermuted(b, a, h.id);
    }
    RankingUnique(x, y);
  }

  lemma AppearsPermuted(a: seq<seq<Hit>>, b: seq<seq<Hit>>, id: Bytes)
    requires multiset(a) == multiset(b)
    ensures Appears(a, id) ==> Appears(b, id)
  {
    if Appears(a, id) {
      AppearsIn(a, b, id);
    }
  }

  lemma AppearsIn(a: seq<seq<Hit>>, b: seq<seq<Hit>>, id: Bytes)
    requires multiset(a) == multiset(b) && Appears(a, id)
    ensures Appears(b, id)
  {
    var l :| 0 <= l < |a| && Lists(a[l], id);
    assert a[l] in multiset(b);
    var m :| 0 <= m < |b| && b[m] == a[l];
    assert Lists(b[m], id);
  }

  ghost predicate DistinctIds(list: seq<Hit>) {
    forall i, j :: 0 <= i < j < |list| ==> list[i].id != list[j].id
  }

  lemma {:induction false} ScoreAt(list: seq<Hit>, k: nat, i: nat)
    requires DistinctIds(list) && i < |list|
    ensures ListScore(list, k, list[i].id) == 1.0 / (k + i + 1) as real
    decreases |list|
  {
    var n := |list|;
    var init := list[..n - 1];
    if i == n - 1 {
      assert forall j :: 0 <= j < n - 1 ==> init[j].id != list[i].id;
      ScoreOfAbsent(init, k, list[i].id);
    } else {
      assert init[i] == list[i];
      ScoreAt(init, k, i);
    }
  }

  lemma Reciprocals(a: real, b: real)
    requires 0.0 < a < b
    ensures 1.0 / a > 1.0 / b > 0.0
  {
    assert (1.0 / a) * a == 1.0 && (1.0 / b) * b == 1.0;
  }

  /** Wherever y is listed, x is listed before it. */
  ghost predicate Beats(list: seq<Hit>, x: Bytes, y: Bytes) {
    forall j :: 0 <= j < |list| && list[j].id == y ==> Lists(list[..j], x)
  }

  lemma {:induction false} ListScoreNonNegative(list: seq<Hit>, k: nat, id: Bytes)
    ensures ListScore(list, k, id) >= 0.0
    decreases |list|
  {
    if list != [] {
      ListScoreNonNegative(list[..|list| - 1], k, id);
    }
  }

  lemma BeatsInList(list: seq<Hit>, k: nat, x: Bytes, y: Bytes)
    requires DistinctIds(list) && Beats(list, x, y)
    ensures ListScore(list, k, x) >= ListScore(list, k, y)
    ensures Lists(list, y) ==> ListScore(list, k, x) > ListScore(list, k, y)
  {
    if Lists(list, y) {
      var j :| 0 <= j < |list| && list[j].id == y;
      var i :| 0 <= i < j && list[..j][i].id == x;
      ScoreAt(list, k, i);
      ScoreAt(list, k, j);
      Reciprocals((k + i + 1) as real, (k + j + 1) as real);
    } else {
      ScoreOfAbsent(list, k, y);
      ListScoreNonNegative(list, k, x);
    }
  }

  lemma {:induction false} BeatsInTotal(lists: seq<seq<Hit>>, k: nat, x: Bytes, y: Bytes)
    requires forall l :: 0 <= l < |lists| ==> DistinctIds(lists[l]) && Beats(lists[l], x, y)
    ensures FusedScore(lists, k, x) >= FusedScore(lists, k, y)
    ensures Appears(lists, y) ==> FusedScore(lists, k, x) > FusedScore(lists, k, y)
    decreases |lists|
  {
    if lists != [] {
      var n := |lists| - 1;
      BeatsInTotal(lists[..n], k, x, y);
      BeatsInList(lists[n], k, x, y);
      assert lists == lists[..n] + [lists[n]];
      AppearsSnoc(lists[..n], lists[n], y);
    }
  }

  /** A chunk that beats another in every list is ranked above it. */
  lemma FusionRespectsDominance(out: seq<Hit>, lists: seq<seq<Hit>>, k: nat, x: Bytes, j: nat)
    returns (i: nat)
    requires IsFusion(out, lists, k) && j < |out|
    requires forall l :: 0 <= l < |lists| ==> DistinctIds(lists[l]) && Beats(lists[l], x, out[j].id)
    ensures i < j && out[i].id == x
  {
    var y := out[j].id;
    assert out[j] in out;
    BeatsInTotal(lists, k, x, y);
    var l :| 0 <= l < |lists| && Lists(lists[l], y);
    var p :| 0 <= p < |lists[l]| && lists[l][p].id == y;
    var q :| 0 <= q < p && lists[l][..p][q].id == x;
    assert lists[l][q].id == x && Lists(lists[l], x);
    var top := Hit(x, FusedScore(lists, k, x));
    assert top in out;
    i :| 0 <= i < |out| && out[i] == top;
    assert out[i].score > out[j].score && !Before(out[j], out[i]);
  }

  // ----- One hit per document -----

  /** How chunks map to documents, when they do. */
  datatype DocOf = Off | By(doc: Bytes -> Bytes)

  ghost predicate FirstOfDoc(hits: seq<Hit>, doc: Bytes -> Bytes, i: int) {
    0 <= i < |hits| && forall j :: 0 <= j < i ==> doc(hits[j].id) != doc(hits[i].id)
  }

  /** The first hit of every document, in order. */
  ghost function Firsts(hits: seq<Hit>, doc: Bytes -> Bytes): seq<Hit>
    decreases hits
  {
    if hits == [] then []
    else
      var n := |hits| - 1;
      Firsts(hits[..n], doc) + (if FirstOfDoc(hits, doc, n) then [hits[n]] else [])
  }

  ghost function Collapsed(hits: seq<Hit>, docOf: DocOf): seq<Hit> {
    match docOf
    case Off => hits
    case By(doc) => Firsts(hits, doc)
  }

  lemma {:induction false} FirstsGrow(hits: seq<Hit>, doc: Bytes -> Bytes, i: nat)
    requires i <= |hits|
    ensures Firsts(hits[..i], doc) <= Firsts(hits, doc)
    decreases |hits| - i
  {
    if i < |hits| {
      assert hits[..i + 1][..i] == hits[..i];
      FirstsGrow(hits, doc, i + 1);
    } else {
      assert hits[..i] == hits;
    }
  }

  ghost predicate SeenDocs(seen: set<Bytes>, hits: seq<Hit>, doc: Bytes -> Bytes, i: nat)
    requires i <= |hits|
  {
    forall d :: d in seen <==> exists j :: 0 <= j < i && doc(hits[j].id) == d
  }

  lemma SeenStep(seen: set<Bytes>, hits: seq<Hit>, doc: Bytes -> Bytes, i: nat)
    requires i < |hits| && SeenDocs(seen, hits, doc, i)
    ensures SeenDocs(seen + {doc(hits[i].id)}, hits, doc, i + 1)
    ensures FirstOfDoc(hits[..i + 1], doc, i) <==> doc(hits[i].id) !in seen
    ensures Firsts(hits[..i + 1], doc)
            == if doc(hits[i].id) in seen then Firsts(hits[..i], doc) else Firsts(hits[..i], doc) + [hits[i]]
  {
    assert hits[..i + 1][..i] == hits[..i];
    assert forall j :: 0 <= j <= i ==> hits[..i + 1][j] == hits[j];
  }

  method CollapseByDoc(hits: seq<Hit>, k: int, docOf: DocOf) returns (out: seq<Hit>)
    ensures out == TopK(Collapsed(hits, docOf), k)
  {
    if docOf.Off? {
      return if k > 0 && k < |hits| then hits[..k] else hits;
    }
    var doc := docOf.doc;
    out := FirstPerDoc(hits, k, doc);
  }

  method FirstPerDoc(hits: seq<Hit>, k: int, doc: Bytes -> Bytes) returns (out: seq<Hit>)
    ensures out == TopK(Firsts(hits, doc), k)
  {
    var seen: set<Bytes> := {};
    out := [];
    var i := 0;
    while i < |hits|
      invariant 0 <= i <= |hits| && SeenDocs(seen, hits, doc, i)
      invariant out == Firsts(hits[..i], doc) && (k > 0 ==> |out| < k)
    {
      var d := doc(hits[i].id);
      SeenStep(seen, hits, doc, i);
      if d !in seen {
        out := out + [hits[i]];
        if k > 0 && |out| >= k {
          FirstsGrow(hits, doc, i + 1);
          return;
        }
      }
      seen := seen + {d};
      i := i + 1;
    }
    assert hits[..|hits|] == hits;
  }

  lemma FirstOfPrefix(hits: seq<Hit>, doc: Bytes -> Bytes, n: nat, i: nat)
    requires i < n <= |hits|
    ensures FirstOfDoc(hits[..n], doc, i) <==> FirstOfDoc(hits, doc, i)
  {
    assert forall j :: 0 <= j <= i ==> hits[..n][j] == hits[j];
  }

  ghost predicate FirstHit(hits: seq<Hit>, doc: Bytes -> Bytes, h: Hit) {
    exists i :: FirstOfDoc(hits, doc, i) && hits[i] == h
  }

  /** Exactly the earliest hit of each document survives. */
  lemma {:induction false} FirstsAre(hits: seq<Hit>, doc: Bytes -> Bytes, h: Hit)
    ensures h in Firsts(hits, doc) <==> FirstHit(hits, doc, h)
    decreases |hits|
  {
    if hits != [] {
      var n := |hits| - 1;
      FirstsAre(hits[..n], doc, h);
      if FirstHit(hits[..n], doc, h) {
        FirstHitUp(hits, doc, n, h);
      }
      if FirstHit(hits, doc, h) {
        FirstHitDown(hits, doc, n, h);
      }
    }
  }

  lemma FirstHitUp(hits: seq<Hit>, doc: Bytes -> Bytes, n: nat, h: Hit)
    requires n <= |hits| && FirstHit(hits[..n], doc, h)
    ensures FirstHit(hits, doc, h)
  {
    var i :| FirstOfDoc(hits[..n], doc, i) && hits[..n][i] == h;
    FirstOfPrefix(hits, doc, n, i);
  }

  lemma FirstHitDown(hits: seq<Hit>, doc: Bytes -> Bytes, n: nat, h: Hit)
    requires |hits| == n + 1 && FirstHit(hits, doc, h)
    ensures FirstHit(hits[..n], doc, h) || (FirstOfDoc(hits, doc, n) && hits[n] == h)
  {
    var i :| FirstOfDoc(hits, doc, i) && hits[i] == h;
    if i < n {
      FirstOfPrefix(hits, doc, n, i);
      assert FirstOfDoc(hits[..n], doc, i) && hits[..n][i] == h;
    }
  }

  /** No two survivors share a document, and they keep their order. */
  lemma {:induction false} FirstsOrdered(hits: seq<Hit>, doc: Bytes -> Bytes)
    ensures DistinctDocs(Firsts(hits, doc), doc)
    ensures StrictlyRanked(hits) ==> StrictlyRanked(Firsts(hits, doc))
    decreases |hits|
  {
    if hits != [] {
      var n := |hits| - 1;
      var init, last := Firsts(hits[..n], doc), hits[n];
      FirstsOrdered(hits[..n], doc);
      forall p | 0 <= p < |init|
        ensures StrictlyRanked(hits) ==> Before(init[p], last)
        ensures FirstOfDoc(hits, doc, n) ==> doc(init[p].id) != doc(last.id)
      {
        assert init[p] in init;
        FirstsAre(hits[..n], doc, init[p]);
        var i :| FirstOfDoc(hits[..n], doc, i) && hits[..n][i] == init[p];
        assert hits[i] == init[p];
      }
      var f := Firsts(hits, doc);
      forall p, q | 0 <= p < q < |f| ensures doc(f[p].id) != doc(f[q].id) {
        if q < |init| {
          assert f[p] == init[p] && f[q] == init[q];
        }
      }
    }
  }

  ghost predicate DistinctDocs(hits: seq<Hit>, doc: Bytes -> Bytes) {
    forall p, q :: 0 <= p < q < |hits| ==> doc(hits[p].id) != doc(hits[q].id)
  }

  // ----- Search -----

  datatype Mode = Hybrid | Semantic | Keyword

  type Query = Bytes
  type Vec = seq<real>

  datatype Filter = All | Keep(passes: Bytes -> bool)

  function Filtered(hits: seq<Hit>, keep: Filter): (r: seq<Hit>)
    ensures forall h :: h in r <==> h in hits && (keep.Keep? ==> keep.passes(h.id))
  {
    if hits == [] || keep.All? then hits
    else
      var n := |hits| - 1;
      Filtered(hits[..n], keep) + (if keep.passes(hits[n].id) then [hits[n]] else [])
  }

  /** These are the places of the hits that pass, in order. */
  ghost predicate PlacesOf(hits: seq<Hit>, passes: Bytes -> bool, r: seq<Hit>, at: seq<nat>) {
    && |at| == |r| && (forall k :: 0 <= k < |at| ==> at[k] < |hits| && r[k] == hits[at[k]])
    && (forall a, b :: 0 <= a < b < |at| ==> at[a] < at[b])
    && (forall i :: 0 <= i < |hits| && passes(hits[i].id) ==> i in at)
  }

  lemma PlacesSnoc(hits: seq<Hit>, passes: Bytes -> bool, r: seq<Hit>, at: seq<nat>, h: Hit)
    requires PlacesOf(hits, passes, r, at)
    ensures if passes(h.id) then PlacesOf(hits + [h], passes, r + [h], at + [|hits|])
            else PlacesOf(hits + [h], passes, r, at)
  {
    assert |hits| in at + [|hits|];
    assert forall i :: i in at ==> i in at + [|hits|];
  }

  /** The hits that pass keep their order, and no other is among them. */
  lemma {:induction false} FilteredInOrder(hits: seq<Hit>, passes: Bytes -> bool) returns (at: seq<nat>)
    ensures PlacesOf(hits, passes, Filtered(hits, Keep(passes)), at)
    decreases hits
  {
    at := [];
    if hits != [] {
      var n := |hits| - 1;
      at := FilteredInOrder(hits[..n], passes);
      PlacesSnoc(hits[..n], passes, Filtered(hits[..n], Keep(passes)), at, hits[n]);
      assert hits[..n] + [hits[n]] == hits;
      if passes(hits[n].id) {
        at := at + [n];
      }
    }
  }

  method FilterHits(hits: seq<Hit>, keep: Filter) returns (out: seq<Hit>)
    ensures out == Filtered(hits, keep)
  {
    if keep.All? {
      return hits;
    }
    out := [];
    for i := 0 to |hits|
      invariant out == Filtered(hits[..i], keep)
    {
      assert hits[..i + 1][..i] == hits[..i];
      if keep.passes(hits[i].id) {
        out := out + [hits[i]];
      }
    }
    assert hits[..|hits|] == hits;
  }

  /** What a retrieval reads: the two indexes and the query embedder, each a function of its input. */
  datatype Sources = Sources(
    keyword: (Query, int) -> seq<Hit>,
    nearest: (Vec, int) -> seq<Hit>,
    embed: Query -> Result<seq<Vec>>)

  ghost predicate SemanticIs(src: Sources, query: Query, pool: int, r: Result<seq<Hit>>) {
    match src.embed(query)
    case Err(e) => r == Err(e)
    case Ok(vecs) => r == Ok(if vecs == [] then [] else src.nearest(vecs[0], pool))
  }

  /** The candidates of a query, best first: one filtered list, or the fusion of two. */
  ghost predicate Candidates(src: Sources, query: Query, mode: Mode, rrfK: nat, pool: int, keep: Filter,
                             r: Result<seq<Hit>>) {
    match mode
    case Keyword => r == Ok(Filtered(src.keyword(query, pool), keep))
    case Semantic =>
      exists v :: SemanticIs(src, query, pool, v) &&
              (match v case Err(e) => r == Err(e) case Ok(hits) => r == Ok(Filtered(hits, keep)))
    case Hybrid =>
      exists v :: SemanticIs(src, query, pool, v) &&
        match v
        case Err(e) => r == Err(e)
        case Ok(hits) =>
          r.Ok? && IsFusion(r.value, [Filtered(hits, keep), Filtered(src.keyword(query, pool), keep)], rrfK)
  }

  lemma CandidatesUnique(src: Sources, query: Query, mode: Mode, rrfK: nat, pool: int, keep: Filter,
                         a: Result<seq<Hit>>, b: Result<seq<Hit>>)
    requires Candidates(src, query, mode, rrfK, pool, keep, a) && Candidates(src, query, mode, rrfK, pool, keep, b)
    ensures a == b
  {
    if mode.Hybrid? && a.Ok? {
      RankingUnique(a.value, b.value);
    }
  }

  /** One attempt at reranking: scores for the candidate texts, or a failure. */
  type Reranker = (nat, seq<Bytes>) -> Result<seq<real>>

  const MaxRetryPool: nat := 200

  ghost predicate Descending(s: seq<Hit>) {
    forall i, j :: 0 <= i < j < |s| ==> s[i].score >= s[j].score
  }

  function Rescored(hits: seq<Hit>, scores: seq<real>): (r: seq<Hit>)
    requires |hits| == |scores|
    ensures |r| == |hits|
  {
    seq(|hits|, i requires 0 <= i < |hits| => Hit(hits[i].id, scores[i]))
  }

  /** The best k of the rescored hits; the order of equal scores is left open. */
  ghost predicate IsReranked(hits: seq<Hit>, scores: seq<real>, k: nat, out: seq<Hit>) {
    && |hits| == |scores|
    && exists sorted :: Descending(sorted) && multiset(sorted) == multiset(Rescored(hits, scores))
                        && out == (if k < |sorted| then sorted[..k] else sorted)
  }

  /** Every reranked hit carries the score of its own text; those left out score no better. */
  lemma RerankedOwnScores(hits: seq<Hit>, scores: seq<real>, k: nat, out: seq<Hit>)
    requires IsReranked(hits, scores, k, out)
    ensures |out| == if k < |hits| then k else |hits|
    ensures forall h :: h in out ==> exists i :: 0 <= i < |hits| && h.id == hits[i].id && h.score == scores[i]
    ensures forall i, j :: 0 <= i < j < |out| ==> out[i].score >= out[j].score
    ensures forall i, h :: 0 <= i < |hits| && h in out ==> Hit(hits[i].id, scores[i]) in out || scores[i] <= h.score
  {
    var rescored := Rescored(hits, scores);
    var sorted :| Descending(sorted) && multiset(sorted) == multiset(rescored)
                  && out == (if k < |sorted| then sorted[..k] else sorted);
    assert |sorted| == |multiset(sorted)| == |multiset(rescored)| == |hits|;
    forall h | h in out ensures exists i :: 0 <= i < |hits| && h.id == hits[i].id && h.score == scores[i] {
      assert h in multiset(sorted) && h in multiset(rescored);
      var i :| 0 <= i < |rescored| && rescored[i] == h;
      assert h.id == hits[i].id && h.score == scores[i];
    }
    forall i, h | 0 <= i < |hits| && h in out && Hit(hits[i].id, scores[i]) !in out ensures scores[i] <= h.score {
      assert rescored[i] == Hit(hits[i].id, scores[i]) && rescored[i] in multiset(sorted);
      LeftOut(sorted, k, rescored[i], h);
    }
  }

  lemma LeftOut(sorted: seq<Hit>, k: nat, left: Hit, h: Hit)
    requires Descending(sorted) && left in sorted
    requires var out := if k < |sorted| then sorted[..k] else sorted; h in out && left !in out
    ensures left.score <= h.score
  {
    var i :| 0 <= i < |sorted| && sorted[i] == left;
    var j :| 0 <= j < |sorted| && j < k && sorted[j] == h;
    InFront(sorted, if k < |sorted| then k else |sorted|, i);
    assert sorted[..|sorted|] == sorted;
  }

  lemma InFront(s: seq<Hit>, n: nat, i: nat)
    requires n <= |s| && i < |s|
    ensures i < n ==> s[i] in s[..n]
  {
    if i < n {
      assert s[..n][i] == s[i];
    }
  }

  method SortByScore(ss: seq<Hit>) returns (sorted: seq<Hit>)
    ensures Descending(sorted) && multiset(sorted) == multiset(ss)
  {
    sorted := [];
    for i := 0 to |ss|
      invariant Descending(sorted) && multiset(sorted) == multiset(ss[..i])
    {
      assert ss[..i + 1] == ss[..i] + [ss[i]];
      sorted := InsertByScore(sorted, ss[i]);
    }
    assert ss[..|ss|] == ss;
  }

  method InsertByScore(s: seq<Hit>, h: Hit) returns (r: seq<Hit>)
    requires Descending(s)
    ensures Descending(r) && multiset(r) == multiset(s) + multiset{h}
  {
    var k := |s|;
    while k > 0 && s[k - 1].score < h.score
      invariant 0 <= k <= |s|
      invariant forall j :: k <= j < |s| ==> s[j].score < h.score
    {
      k := k - 1;
    }
    InsertedDescending(s, k, h);
    r := InsertAt(s, k, h);
  }

  function InsertAt(s: seq<Hit>, k: nat, h: Hit): (r: seq<Hit>)
    requires k <= |s|
    ensures multiset(r) == multiset(s) + multiset{h}
  {
    assert s == s[..k] + s[k..];
    s[..k] + [h] + s[k..]
  }

  lemma InsertedDescending(s: seq<Hit>, k: nat, h: Hit)
    requires k <= |s| && Descending(s)
    requires k > 0 ==> s[k - 1].score >= h.score
    requires forall j :: k <= j < |s| ==> s[j].score < h.score
    ensures Descending(InsertAt(s, k, h))
  {
    var r := InsertAt(s, k, h);
    forall i, j | 0 <= i < j < |r| ensures r[i].score >= r[j].score {
      assert r[i] == if i < k then s[i] else if i == k then h else s[i - 1];
      assert r[j] == if j < k then s[j] else if j == k then h else s[j - 1];
    }
  }

  datatype Attempt = Failed(error: string) | Reranked(hits: seq<Hit>) | Fallback(hits: seq<Hit>)

  /** The scorer answers some candidates with an error, or with another number of scores. */
  predicate ScorerFailsOn(rerank: Reranker, attempt: nat, chunkText: Bytes -> Bytes, hits: seq<Hit>) {
    hits != [] && (rerank(attempt, Texts(hits, chunkText)).Err? ||
                   |rerank(attempt, Texts(hits, chunkText)).value| != |hits|)
  }

  /** Scores the candidates' texts; None when the scorer fails or answers with another number of scores. */
  method Rescore(hits: seq<Hit>, k: nat, rerank: Reranker, attempt: nat, chunkText: Bytes -> Bytes)
    returns (out: Option<seq<Hit>>)
    ensures var s := rerank(attempt, Texts(hits, chunkText));
            if s.Ok? && |s.value| == |hits| then out.Some? && IsReranked(hits, s.value, k, out.value) else out.None?
  {
    var scores := rerank(attempt, Texts(hits, chunkText));
    if scores.Err? || |scores.value| != |hits| {
      return None;
    }
    var sorted := SortByScore(Rescored(hits, scores.value));
    out := Some(if k < |sorted| then sorted[..k] else sorted);
  }

  class Retrieval {
    const src: Sources
    var rrfK: int
    var poolSize: int
    var retryRerank: bool
    var keep: Filter

    ghost predicate Valid()
      reads this
    {
      rrfK > 0 && poolSize > 0
    }

    constructor (src: Sources)
      ensures Valid() && this.src == src && rrfK == 60 && poolSize == 60 && !retryRerank && keep == All
    {
      this.src := src;
      rrfK, poolSize, retryRerank, keep := 60, 60, false, All;
    }

    /** A non-positive value leaves the default in effect. */
    method SetRRFK(k: int)
      requires Valid()
      modifies this`rrfK
      ensures Valid() && rrfK == if k > 0 then k else old(rrfK)
    {
      if k > 0 {
        rrfK := k;
      }
    }

    method SetPoolSize(n: int)
      requires Valid()
      modifies this`poolSize
      ensures Valid() && poolSize == if n > 0 then n else old(poolSize)
    {
      if n > 0 {
        poolSize := n;
      }
    }

    method EnableRerankRetry()
      requires Valid()
      modifies this`retryRerank
      ensures Valid() && retryRerank
    {
      retryRerank := true;
    }

    method SetFilter(keep: Filter)
      requires Valid()
      modifies this`keep
      ensures Valid() && this.keep == keep
    {
      this.keep := keep;
    }

    /** The collapsed candidates, all of them. */
    ghost predicate IsPool(query: Query, mode: Mode, docOf: DocOf, r: Result<seq<Hit>>)
      requires Valid()
      reads this
    {
      exists c :: Candidates(src, query, mode, rrfK, poolSize, keep, c) &&
        match c
        case Err(e) => r == Err(e)
        case Ok(hits) => r == Ok(Collapsed(hits, docOf))
    }

    /** What a search for k hits returns. */
    ghost predicate IsSearch(query: Query, k: int, mode: Mode, docOf: DocOf, r: Result<seq<Hit>>)
      requires Valid()
      reads this
    {
      exists p :: IsPool(query, mode, docOf, p) &&
        match p
        case Err(e) => r == Err(e)
        case Ok(hits) => r == Ok(TopK(hits, k))
    }

    method SemanticHits(query: Query) returns (r: Result<seq<Hit>>)
      ensures SemanticIs(src, query, poolSize, r)
    {
      var v := src.embed(query);
      match v
      case Err(e) => r := Err(e);
      case Ok(vecs) => r := Ok(if vecs == [] then [] else src.nearest(vecs[0], poolSize));
    }

    method Gather(query: Query, mode: Mode) returns (r: Result<seq<Hit>>)
      requires Valid()
      ensures Candidates(src, query, mode, rrfK, poolSize, keep, r)
    {
      match mode
      case Keyword =>
        var hits := FilterHits(src.keyword(query, poolSize), keep);
        r := Ok(hits);
      case Semantic =>
        var v := SemanticHits(query);
        if v.Err? {
          return Err(v.error);
        }
        var hits := FilterHits(v.value, keep);
        r := Ok(hits);
      case Hybrid =>
        var fts := FilterHits(src.keyword(query, poolSize), keep);
        var v := SemanticHits(query);
        if v.Err? {
          return Err(v.error);
        }
        var vec := FilterHits(v.value, keep);
        var fused := ReciprocalRankFusionN([vec, fts], rrfK);
        r := Ok(fused);
    }

    method Search(query: Query, k: int, mode: Mode, docOf: DocOf) returns (r: Result<seq<Hit>>)
      requires Valid()
      ensures IsSearch(query, k, mode, docOf, r)
    {
      var c := Gather(query, mode);
      match c
      case Err(e) =>
        assert IsPool(query, mode, docOf, Err(e));
        r := Err(e);
      case Ok(hits) =>
        assert IsPool(query, mode, docOf, Ok(Collapsed(hits, docOf)));
        var out := CollapseByDoc(hits, k, docOf);
        r := Ok(out);
    }

    /** The scorer's own answer on the candidates of a search for `pool` hits, best k first. */
    ghost predicate IsRerankOf(query: Query, k: nat, mode: Mode, docOf: DocOf, rerank: Reranker, attempt: nat,
                               chunkText: Bytes -> Bytes, pool: int, hits: seq<Hit>, out: seq<Hit>)
      requires Valid()
      reads this
    {
      && IsSearch(query, pool, mode, docOf, Ok(hits))
      && if hits == [] then out == []
         else
           var s := rerank(attempt, Texts(hits, chunkText));
           s.Ok? && IsReranked(hits, s.value, k, out)
    }

    /** The first k of all collapsed candidates, of which there are some. */
    ghost predicate IsFallback(query: Query, k: nat, mode: Mode, docOf: DocOf, hits: seq<Hit>)
      requires Valid()
      reads this
    {
      exists p :: IsPool(query, mode, docOf, Ok(p)) && p != [] && hits == p[..if k < |p| then k else |p|]
    }

    /** The scorer fails on the candidates of a search for `pool` hits. */
    ghost predicate ScorerFails(query: Query, mode: Mode, docOf: DocOf, rerank: Reranker, attempt: nat,
                                chunkText: Bytes -> Bytes, pool: int)
      requires Valid()
      reads this
    {
      exists hits :: IsSearch(query, pool, mode, docOf, Ok(hits)) && ScorerFailsOn(rerank, attempt, chunkText, hits)
    }

    /** The candidates of a first attempt, and of a retry, which gets twice as many up to a cap. */
    function FirstPool(k: nat): int
      reads this
    {
      if poolSize < k then k else poolSize
    }

    function RetryPool(k: nat): int
      reads this
    {
      if FirstPool(k) * 2 > MaxRetryPool then MaxRetryPool else FirstPool(k) * 2
    }

    /** Whether an attempt with that pool is made: the first one, or the retry after the first has failed,
        when it is enabled and has more candidates to offer. */
    ghost predicate Attempted(query: Query, k: nat, mode: Mode, docOf: DocOf, rerank: Reranker,
                              chunkText: Bytes -> Bytes, attempt: nat, pool: int)
      requires Valid()
      reads this
    {
      if attempt == 0 then pool == FirstPool(k)
      else
        && attempt == 1 && retryRerank && pool == RetryPool(k) > FirstPool(k)
        && ScorerFails(query, mode, docOf, rerank, 0, chunkText, FirstPool(k))
    }

    /** Retrieves `pool` candidates and reranks them. */
    method AttemptRerank(query: Query, k: nat, mode: Mode, docOf: DocOf, rerank: Reranker, attempt: nat,
                         chunkText: Bytes -> Bytes, pool: int) returns (a: Attempt)
      requires Valid() && pool >= k && pool > 0
      ensures AttemptGave(query, k, mode, docOf, rerank, chunkText, attempt, pool, a)
    {
      var c := Search(query, pool, mode, docOf);
      ErrAtAnyK(query, k, pool, mode, docOf, c);
      if c.Err? {
        return Failed(c.error);
      }
      var hits := c.value;
      if |hits| == 0 {
        assert IsRerankOf(query, k, mode, docOf, rerank, attempt, chunkText, pool, hits, hits);
        return Reranked(hits);
      }
      var out := Rescore(hits, k, rerank, attempt, chunkText);
      if out.None? {
        CutIsFallback(query, k, pool, mode, docOf, hits);
        assert ScorerFailsOn(rerank, attempt, chunkText, hits);
        return Fallback(if k < |hits| then hits[..k] else hits);
      }
      assert IsRerankOf(query, k, mode, docOf, rerank, attempt, chunkText, pool, hits, out.value);
      a := Reranked(out.value);
    }

    lemma ErrAtAnyK(query: Query, k: int, pool: int, mode: Mode, docOf: DocOf, r: Result<seq<Hit>>)
      requires Valid() && IsSearch(query, pool, mode, docOf, r)
      ensures r.Err? ==> IsSearch(query, k, mode, docOf, r)
    {
    }

    lemma CutIsFallback(query: Query, k: nat, pool: int, mode: Mode, docOf: DocOf, hits: seq<Hit>)
      requires Valid() && IsSearch(query, pool, mode, docOf, Ok(hits)) && hits != [] && pool >= k && pool > 0
      ensures IsFallback(query, k, mode, docOf, if k < |hits| then hits[..k] else hits)
    {
      var p :| IsPool(query, mode, docOf, p) && (match p case Err(e) => false case Ok(all) => hits == TopK(all, pool));
      CutTwice(p.value, pool, k);
      assert p == Ok(p.value);
    }

    lemma PoolUnique(query: Query, mode: Mode, docOf: DocOf, a: Result<seq<Hit>>, b: Result<seq<Hit>>)
      requires Valid() && IsPool(query, mode, docOf, a) && IsPool(query, mode, docOf, b)
      ensures a == b
    {
      var c :| Candidates(src, query, mode, rrfK, poolSize, keep, c) &&
        (match c case Err(e) => a == Err(e) case Ok(hits) => a == Ok(Collapsed(hits, docOf)));
      var d :| Candidates(src, query, mode, rrfK, poolSize, keep, d) &&
        (match d case Err(e) => b == Err(e) case Ok(hits) => b == Ok(Collapsed(hits, docOf)));
      CandidatesUnique(src, query, mode, rrfK, poolSize, keep, c, d);
    }

    /** Searching into a larger pool and cutting to k is searching for k. */
    lemma LargerPoolThenCut(query: Query, pool: int, k: int, mode: Mode, docOf: DocOf, hits: seq<Hit>)
      requires Valid() && IsSearch(query, pool, mode, docOf, Ok(hits)) && 0 < k <= pool
      ensures IsSearch(query, k, mode, docOf, Ok(TopK(hits, k)))
    {
      var p :| IsPool(query, mode, docOf, p) && (match p case Err(e) => false case Ok(all) => hits == TopK(all, pool));
      assert TopK(TopK(p.value, pool), k) == TopK(p.value, k);
      assert p == Ok(p.value);
    }

    /** Falling back gives exactly what a plain search for k hits gives, unless k is 0: a plain search
        then returns everything, and the fallback nothing. */
    lemma FallbackIsSearchIff(query: Query, k: nat, mode: Mode, docOf: DocOf, hits: seq<Hit>)
      requires Valid() && IsFallback(query, k, mode, docOf, hits)
      ensures IsSearch(query, k, mode, docOf, Ok(hits)) <==> k >= 1
    {
      var p :| IsPool(query, mode, docOf, Ok(p)) && p != [] && hits == p[..if k < |p| then k else |p|];
      assert p[..|p|] == p;
      if k >= 1 {
        assert hits == TopK(p, k);
      } else if IsSearch(query, k, mode, docOf, Ok(hits)) {
        var q :| IsPool(query, mode, docOf, q) && (match q case Err(e) => false case Ok(all) => hits == TopK(all, k));
        PoolUnique(query, mode, docOf, Ok(p), q);
      }
    }

    /** A reranked answer: the scorer was asked about the texts of the candidates, in their order, and every
        hit carries the score given for its own text. */
    lemma RerankedByText(query: Query, k: nat, mode: Mode, docOf: DocOf, rerank: Reranker, attempt: nat,
                         chunkText: Bytes -> Bytes, pool: int, hits: seq<Hit>, out: seq<Hit>, texts: seq<Bytes>)
      requires Valid() && IsRerankOf(query, k, mode, docOf, rerank, attempt, chunkText, pool, hits, out) && hits != []
      requires |texts| == |hits| && forall i :: 0 <= i < |hits| ==> texts[i] == chunkText(hits[i].id)
      ensures rerank(attempt, texts).Ok? && |rerank(attempt, texts).value| == |hits|
      ensures forall h :: h in out ==>
                exists i :: 0 <= i < |hits| && h.id == hits[i].id && h.score == rerank(attempt, texts).value[i]
    {
      assert texts == Texts(hits, chunkText);
      RerankedOwnScores(hits, rerank(attempt, texts).value, k, out);
    }

    /** The first attempt asks for k candidates or the pool size, the larger; a retry for twice as many, and
        never for more than 200. */
    lemma PoolsAsked(query: Query, k: nat, mode: Mode, docOf: DocOf, rerank: Reranker, chunkText: Bytes -> Bytes,
                     attempt: nat, pool: int)
      requires Valid() && Attempted(query, k, mode, docOf, rerank, chunkText, attempt, pool)
      ensures attempt == 0 ==> pool >= k && pool >= poolSize && (pool == k || pool == poolSize)
      ensures attempt > 0 ==>
                attempt == 1 && k <= pool <= 200 && (pool == 200 || pool == 2 * k || pool == 2 * poolSize)
                && poolSize < pool && (pool <= 2 * k || pool <= 2 * poolSize)
    {
    }

    /** With documents to collapse by, a search names each document once. */
    lemma SearchNamesDocsOnce(query: Query, k: int, mode: Mode, doc: Bytes -> Bytes, hits: seq<Hit>)
      requires Valid() && IsSearch(query, k, mode, By(doc), Ok(hits))
      ensures DistinctDocs(hits, doc)
    {
      var p :| IsPool(query, mode, By(doc), p) && (match p case Err(e) => false case Ok(all) => hits == TopK(all, k));
      var c :| Candidates(src, query, mode, rrfK, poolSize, keep, c) &&
        (match c case Err(e) => p == Err(e) case Ok(found) => p == Ok(Collapsed(found, By(doc))));
      FirstsOrdered(c.value, doc);
    }

    /** What an attempt with that pool returned. */
    ghost predicate AttemptGave(query: Query, k: nat, mode: Mode, docOf: DocOf, rerank: Reranker,
                                chunkText: Bytes -> Bytes, attempt: nat, pool: int, a: Attempt)
      requires Valid()
      reads this
    {
      match a
      case Failed(e) => IsSearch(query, k, mode, docOf, Err(e))
      case Reranked(out) =>
        exists hits :: IsRerankOf(query, k, mode, docOf, rerank, attempt, chunkText, pool, hits, out)
      case Fallback(hits) =>
        IsFallback(query, k, mode, docOf, hits) && ScorerFails(query, mode, docOf, rerank, attempt, chunkText, pool)
    }

    /** The first attempt, or the retry in its place. */
    method Attempts(query: Query, k: nat, mode: Mode, docOf: DocOf, rerank: Reranker, chunkText: Bytes -> Bytes)
      returns (a: Attempt, ghost attempt: nat, ghost pool: int)
      requires Valid()
      ensures Attempted(query, k, mode, docOf, rerank, chunkText, attempt, pool)
      ensures AttemptGave(query, k, mode, docOf, rerank, chunkText, attempt, pool, a)
      ensures a.Fallback? ==> ScorerFails(query, mode, docOf, rerank, 0, chunkText, FirstPool(k))
      ensures a.Fallback? && retryRerank && RetryPool(k) > FirstPool(k) ==> attempt == 1
    {
      var first := if poolSize < k then k else poolSize;
      attempt, pool := 0, first;
      a := AttemptRerank(query, k, mode, docOf, rerank, 0, chunkText, first);
      if a.Fallback? && retryRerank {
        var retryPool := if first * 2 > MaxRetryPool then MaxRetryPool else first * 2;
        if retryPool > first {
          attempt, pool := 1, retryPool;
          a := AttemptRerank(query, k, mode, docOf, rerank, 1, chunkText, retryPool);
        }
      }
    }

    /** Reranked hits when the scorer answers, with one retry on a larger pool when that is enabled; the
        plain hits, flagged, when it does not; an error only when the retrieval itself fails. */
    method SearchWithRerank(query: Query, k: nat, mode: Mode, docOf: DocOf, reranker: Option<Reranker>,
                            chunkText: Bytes -> Bytes)
      returns (r: Result<seq<Hit>>, failed: bool)
      requires Valid()
      ensures failed ==> reranker.Some?
      ensures reranker.None? ==> !failed && IsSearch(query, k, mode, docOf, r)
      ensures r.Err? ==> !failed && IsSearch(query, k, mode, docOf, r)
      ensures failed ==> r.Ok? && (IsSearch(query, k, mode, docOf, r) <==> k >= 1)
      ensures reranker.Some? && r.Ok? && !failed ==> exists attempt, pool, hits ::
                Attempted(query, k, mode, docOf, reranker.value, chunkText, attempt, pool)
                && IsRerankOf(query, k, mode, docOf, reranker.value, attempt, chunkText, pool, hits, r.value)
      ensures failed ==> ScorerFails(query, mode, docOf, reranker.value, 0, chunkText, FirstPool(k))
      ensures failed && retryRerank && RetryPool(k) > FirstPool(k) ==>
                ScorerFails(query, mode, docOf, reranker.value, 1, chunkText, RetryPool(k))
    {
      if reranker.None? {
        r := Search(query, k, mode, docOf);
        return r, false;
      }
      var a, attempt, pool := Attempts(query, k, mode, docOf, reranker.value, chunkText);
      match a
      case Failed(e) => r, failed := Err(e), false;
      case Reranked(hits) => r, failed := Ok(hits), false;
      case Fallback(hits) =>
        FallbackIsSearchIff(query, k, mode, docOf, hits);
        r, failed := Ok(hits), true;
    }
  }

  lemma CutTwice(all: seq<Hit>, pool: int, k: nat)
    requires pool >= k && pool > 0
    ensures var hits := TopK(all, pool);
            (if k < |hits| then hits[..k] else hits) == all[..if k < |all| then k else |all|]
  {
    assert all[..|all|] == all;
  }

  datatype Option<T> = None | Some(value: T)

  function Texts(hits: seq<Hit>, chunkText: Bytes -> Bytes): seq<Bytes> {
    seq(|hits|, i requires 0 <= i < |hits| => chunkText(hits[i].id))
  }

  // ----- The vector index -----

  class Vector {
    var chunks: map<Bytes, Vec>
    var dims: nat

    constructor ()
      ensures chunks == map[] && dims == 0
    {
      chunks, dims := map[], 0;
    }

    /** Stores or replaces the vector of a chunk. */
    method Add(id: Bytes, vec: Vec)
      modifies this
      ensures chunks == old(chunks)[id := vec]
      ensures dims == if old(dims) == 0 && |vec| > 0 then |vec| else old(dims)
    {
      if dims == 0 && |vec| > 0 {
        dims := |vec|;
      }
      chunks := chunks[id := vec];
    }

    method Delete(id: Bytes)
      modifies this`chunks
      ensures chunks == old(chunks) - {id}
    {
      chunks := chunks - {id};
    }

    /** The k nearest chunks. A vector of another length than the query's is never scored. */
    method Query(vec: Vec, k: int, cosine: (Vec, Vec) -> real) returns (hits: seq<Hit>)
      ensures exists all :: hits == TopK(all, k) && Ranks(all, Similarities(chunks, vec, cosine))
    {
      var scores: map<Bytes, real> := map[];
      var left := chunks.Keys;
      while left != {}
        invariant left <= chunks.Keys
        invariant forall id :: id in scores <==> id in chunks && id !in left && |chunks[id]| == |vec|
        invariant forall id :: id in scores ==> scores[id] == cosine(vec, chunks[id])
        decreases left
      {
        var id :| id in left;
        if |chunks[id]| == |vec| {
          scores := scores[id := cosine(vec, chunks[id])];
        }
        left := left - {id};
      }
      assert scores == Similarities(chunks, vec, cosine);
      var all := RankTable(scores);
      hits := TopK(all, k);
    }
  }

  /** A result of the vector index names each chunk once, as fusion expects of its lists. */
  lemma NearestNamesOnce(chunks: map<Bytes, Vec>, vec: Vec, k: int, cosine: (Vec, Vec) -> real, all: seq<Hit>)
    requires Ranks(all, Similarities(chunks, vec, cosine))
    ensures DistinctIds(TopK(all, k))
  {
    forall i, j | 0 <= i < j < |TopK(all, k)| ensures TopK(all, k)[i].id != TopK(all, k)[j].id {
      RankedOnce(all, Similarities(chunks, vec, cosine), k, i, j);
    }
  }

  /** The nearest chunks: of those whose vector has the query's length, each with its own similarity, the k
      most similar, equally similar ones by id. */
  lemma NearestAre(chunks: map<Bytes, Vec>, vec: Vec, k: int, cosine: (Vec, Vec) -> real, all: seq<Hit>, h: Hit)
    requires Ranks(all, Similarities(chunks, vec, cosine))
    ensures h in TopK(all, k) ==> h.id in chunks && |chunks[h.id]| == |vec| && h.score == cosine(vec, chunks[h.id])
    ensures forall id :: id in chunks && |chunks[id]| == |vec| && h in TopK(all, k) ==>
              || Hit(id, cosine(vec, chunks[id])) in TopK(all, k)
              || cosine(vec, chunks[id]) < h.score || (cosine(vec, chunks[id]) == h.score && Less(h.id, id))
  {
    if h in TopK(all, k) {
      assert h in all;
      forall id | id in chunks && |chunks[id]| == |vec| && Hit(id, cosine(vec, chunks[id])) !in TopK(all, k)
        ensures Before(h, Hit(id, cosine(vec, chunks[id])))
      {
        var x := Hit(id, cosine(vec, chunks[id]));
        assert x in all;
        RankedBefore(all, k, h, x);
      }
    }
  }

  lemma RankedBefore(all: seq<Hit>, k: int, h: Hit, x: Hit)
    requires StrictlyRanked(all) && h in TopK(all, k) && x in all && x !in TopK(all, k)
    ensures Before(h, x)
  {
    var i :| 0 <= i < |TopK(all, k)| && TopK(all, k)[i] == h;
    var j :| 0 <= j < |all| && all[j] == x;
    InFront(all, |TopK(all, k)|, j);
  }

  function Similarities(chunks: map<Bytes, Vec>, vec: Vec, cosine: (Vec, Vec) -> real): map<Bytes, real> {
    map id | id in chunks && |chunks[id]| == |vec| :: cosine(vec, chunks[id])
  }
}
