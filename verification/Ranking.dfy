/** Ranked hit lists (internal/index/fts.go, internal/index/retrieval.go): highest score first,
    equal scores by chunk id. */
module Ranking {
  import opened Bytes

  datatype Hit = Hit(id: Bytes, score: real)

  predicate Before(a: Hit, b: Hit) {
    a.score > b.score || (a.score == b.score && Less(a.id, b.id))
  }

  lemma BeforeTransitive(a: Hit, b: Hit, c: Hit)
    requires Before(a, b) && Before(b, c)
    ensures Before(a, c)
  {
    if a.score == b.score == c.score {
      LessTransitive(a.id, b.id, c.id);
    }
  }

  lemma BeforeAsymmetric(a: Hit, b: Hit)
    requires Before(a, b)
    ensures !Before(b, a) && a != b
  {
    if a.score == b.score {
      LessAsymmetric(a.id, b.id);
    }
  }

  ghost predicate StrictlyRanked(hits: seq<Hit>) {
    forall i, j :: 0 <= i < j < |hits| ==> Before(hits[i], hits[j])
  }

  /** The ranking of a score table: its entries, strictly ordered. */
  ghost predicate Ranks(hits: seq<Hit>, scores: map<Bytes, real>) {
    && StrictlyRanked(hits)
    && (forall h :: h in hits <==> h.id in scores && scores[h.id] == h.score)
  }

  /** Adds to the score of one id, which starts at zero. */
  function AddTo(scores: map<Bytes, real>, id: Bytes, w: real): map<Bytes, real> {
    scores[id := (if id in scores then scores[id] else 0.0) + w]
  }

  /** The first k; all of them when there are no more, or when k is not positive. */
  function TopK(hits: seq<Hit>, k: int): (r: seq<Hit>)
    ensures r <= hits && |r| == if k <= 0 || |hits| <= k then |hits| else k
  {
    if 0 < k < |hits| then hits[..k] else hits
  }

  lemma TailMembers(a: seq<Hit>)
    requires a != [] && StrictlyRanked(a)
    ensures forall h :: h in a[1..] <==> h in a && h != a[0]
  {
    forall h ensures h in a[1..] <==> h in a && h != a[0] {
      if h in a[1..] {
        var i :| 0 <= i < |a[1..]| && a[1..][i] == h;
        BeforeAsymmetric(a[0], a[i + 1]);
      }
      if h in a && h != a[0] {
        var i :| 0 <= i < |a| && a[i] == h;
        assert a[1..][i - 1] == h;
      }
    }
  }

  lemma HeadsAgree(a: seq<Hit>, b: seq<Hit>)
    requires a != [] && b != [] && StrictlyRanked(a) && StrictlyRanked(b)
    requires forall h :: h in a <==> h in b
    ensures a[0] == b[0]
  {
    assert a[0] in b && b[0] in a;
    var i :| 0 <= i < |b| && b[i] == a[0];
    var j :| 0 <= j < |a| && a[j] == b[0];
    if a[0] != b[0] {
      BeforeAsymmetric(a[0], b[0]);
    }
  }

  /** Of two ids in a ranking, the one with the higher score comes first, and of two with equal scores the
      smaller one. */
  lemma HigherRanksFirst(all: seq<Hit>, scores: map<Bytes, real>, k: int, i: nat, j: nat)
    requires Ranks(all, scores) && i < |TopK(all, k)| && j < |TopK(all, k)|
    requires var a, b := TopK(all, k)[i].id, TopK(all, k)[j].id;
             a in scores && b in scores && (scores[a] > scores[b] || (scores[a] == scores[b] && Less(a, b)))
    ensures i < j
  {
    assert all[i] in all && all[j] in all;
    var a, b := all[i], all[j];
    if a.score == b.score {
      LessAsymmetric(a.id, b.id);
    }
  }

  /** A table has only one ranking, whatever order its entries were visited in. */
  lemma {:induction false} RankingUnique(a: seq<Hit>, b: seq<Hit>)
    requires StrictlyRanked(a) && StrictlyRanked(b)
    requires forall h :: h in a <==> h in b
    ensures a == b
    decreases |a|
  {
    HasHit(a);
    HasHit(b);
    if a != [] && b != [] {
      HeadsAgree(a, b);
      TailMembers(a);
      TailMembers(b);
      RankingUnique(a[1..], b[1..]);
      assert a == [a[0]] + a[1..] && b == [b[0]] + b[1..];
    }
  }

  /** A ranked list names each chunk once, cut or not. */
  lemma RankedOnce(all: seq<Hit>, scores: map<Bytes, real>, k: int, i: nat, j: nat)
    requires Ranks(all, scores) && i < j < |TopK(all, k)|
    ensures TopK(all, k)[i].id != TopK(all, k)[j].id
  {
    assert all[i] in all && all[j] in all;
    BeforeAsymmetric(all[i], all[j]);
  }

  lemma HasHit(s: seq<Hit>)
    ensures s == [] || exists h :: h in s
  {
    assert s == [] || s[0] in s;
  }

  /** Sorts a score table, its entries taken in an arbitrary order. */
  method RankTable(scores: map<Bytes, real>) returns (hits: seq<Hit>)
    ensures Ranks(hits, scores)
  {
    hits := [];
    var left := scores.Keys;
    while left != {}
      invariant left <= scores.Keys && StrictlyRanked(hits)
      invariant forall h :: h in hits <==> h.id in scores && h.id !in left && scores[h.id] == h.score
      decreases left
    {
      var id :| id in left;
      hits := InsertHit(hits, Hit(id, scores[id]));
      left := left - {id};
    }
  }

  method InsertHit(hits: seq<Hit>, h: Hit) returns (r: seq<Hit>)
    requires StrictlyRanked(hits) && forall x :: x in hits ==> x.id != h.id
    ensures StrictlyRanked(r)
    ensures forall x :: x in r <==> x in hits || x == h
  {
    var k := |hits|;
    while k > 0 && Before(h, hits[k - 1])
      invariant 0 <= k <= |hits|
      invariant forall j :: k <= j < |hits| ==> Before(h, hits[j])
    {
      k := k - 1;
    }
    InsertedRanked(hits, k, h);
    r := hits[..k] + [h] + hits[k..];
    assert hits == hits[..k] + hits[k..];
  }

  lemma InsertedRanked(hits: seq<Hit>, k: nat, h: Hit)
    requires StrictlyRanked(hits) && k <= |hits|
    requires forall x :: x in hits ==> x.id != h.id
    requires forall j :: k <= j < |hits| ==> Before(h, hits[j])
    requires k > 0 ==> !Before(h, hits[k - 1])
    ensures StrictlyRanked(hits[..k] + [h] + hits[k..])
  {
    var r := hits[..k] + [h] + hits[k..];
    if k > 0 {
      LessTotal(h.id, hits[k - 1].id);
    }
    forall i, j | 0 <= i < j < |r| ensures Before(r[i], r[j]) {
      if i < k - 1 && j == k {
        BeforeTransitive(hits[i], hits[k - 1], h);
      }
    }
  }
}
