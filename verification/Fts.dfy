/** The full-text index (internal/index/fts.go): an ordered key store and a lazy IDF cache, proved to
    answer with the BM25 ranking of the indexed chunks. */
module Fts {
  import opened Bytes
  import opened Ranking
  import opened FtsStore

  // ----- The reference: BM25 over the chunks, with no keys and no cache -----

  function TermsMatching(toks: seq<Token>, q: Bytes, prefix: bool): set<Bytes> {
    set t | t in Terms(toks) && Matches(q, prefix, t) :: t
  }

  /** Weighted term frequency: of the term itself, or of every term it begins. */
  function Tf(toks: seq<Token>, q: Bytes, prefix: bool): real {
    WeightIn(toks, TermsMatching(toks, q, prefix))
  }

  /** The chunks a query term hits, with their frequencies. A chunk with an empty id is never found. */
  function Posts(docs: Docs, q: Bytes, prefix: bool): map<Bytes, real> {
    map id | id in docs && id != [] && TermsMatching(docs[id], q, prefix) != {} :: Tf(docs[id], q, prefix)
  }

  /** Short terms that hit nothing stand for every term they begin. */
  function Expanded(docs: Docs, q: Bytes): map<Bytes, real> {
    if Posts(docs, q, false) == map[] && |q| < 4 then Posts(docs, q, true) else Posts(docs, q, false)
  }

  ghost function Idf(ln: real -> real, docs: Docs, q: Bytes): real {
    IdfOf(ln, |docs| as real, |Expanded(docs, q)| as real)
  }

  function IdfOf(ln: real -> real, n: real, df: real): real {
    if df + 0.5 == 0.0 then 0.0 else ln(1.0 + (n - df + 0.5) / (df + 0.5))
  }

  /** k1 = 1.2 and b = 0.75. The divisors are positive wherever a chunk is hit. */
  function Bm25(idf: real, tf: real, dl: real, avg: real): real {
    var relative := if avg == 0.0 then 0.0 else dl / avg;
    var denom := tf + 1.2 * (0.25 + 0.75 * relative);
    if denom == 0.0 then 0.0 else idf * (tf * 2.2) / denom
  }

  ghost function AverageLen(docs: Docs): real {
    if |docs| > 0 then TotalLen(docs) as real / |docs| as real else 0.0
  }

  /** What one query term adds to a chunk's score. */
  ghost function Part(ln: real -> real, docs: Docs, q: Bytes, id: Bytes): real {
    if id in Expanded(docs, q) && id in docs then
      Bm25(Idf(ln, docs, q), Expanded(docs, q)[id], |docs[id]| as real, AverageLen(docs))
    else 0.0
  }

  ghost function Score(ln: real -> real, docs: Docs, terms: seq<Term>, id: Bytes): real
    decreases |terms|
  {
    if terms == [] then 0.0
    else Score(ln, docs, terms[..|terms| - 1], id) + Part(ln, docs, terms[|terms| - 1], id)
  }

  ghost predicate Hits(docs: Docs, terms: seq<Term>, id: Bytes) {
    exists i :: 0 <= i < |terms| && id in Expanded(docs, terms[i])
  }

  ghost predicate IsScoreTable(ln: real -> real, docs: Docs, terms: seq<Term>, scores: map<Bytes, real>) {
    && (forall id :: id in scores <==> Hits(docs, terms, id))
    && (forall id :: id in scores ==> scores[id] == Score(ln, docs, terms, id))
  }

  /** Every hit chunk with its BM25 score, best first, cut to k when k is positive. */
  ghost predicate IsAnswer(ln: real -> real, docs: Docs, terms: seq<Term>, k: int, hits: seq<Hit>) {
    exists scores, all :: IsScoreTable(ln, docs, terms, scores) && Ranks(all, scores) && hits == TopK(all, k)
  }

  /** There is one answer only. */
  lemma AnswerUnique(ln: real -> real, docs: Docs, terms: seq<Term>, k: int, a: seq<Hit>, b: seq<Hit>)
    requires IsAnswer(ln, docs, terms, k, a) && IsAnswer(ln, docs, terms, k, b)
    ensures a == b
  {
    var s, x :| IsScoreTable(ln, docs, terms, s) && Ranks(x, s) && a == TopK(x, k);
    var t, y :| IsScoreTable(ln, docs, terms, t) && Ranks(y, t) && b == TopK(y, k);
    forall h: Hit ensures h in x <==> h in y {
      assert h.id in s <==> Hits(docs, terms, h.id);
      assert h.id in t <==> Hits(docs, terms, h.id);
    }
    RankingUnique(x, y);
  }

  /** An answer names each chunk once, as fusion expects of its lists. */
  lemma AnswerNamesOnce(ln: real -> real, docs: Docs, terms: seq<Term>, k: int, hits: seq<Hit>, i: nat, j: nat)
    requires IsAnswer(ln, docs, terms, k, hits) && i < j < |hits|
    ensures hits[i].id != hits[j].id
  {
    var scores, all :| IsScoreTable(ln, docs, terms, scores) && Ranks(all, scores) && hits == TopK(all, k);
    RankedOnce(all, scores, k, i, j);
  }

  // ----- What a score favours -----

  lemma QuotientFalls(a: real, b: real, c: real)
    requires a > 0.0 && 0.0 < b < c
    ensures 0.0 < a / c < a / b
  {
    assert a * b < a * c;
    CrossLess(a, c, a, b);
    CrossLess(0.0, 1.0, a, c);
  }

  lemma MulOrder(a: real, b: real, c: real)
    requires c > 0.0
    ensures a < b <==> a * c < b * c
    ensures a == b <==> a * c == b * c
  {
    MulLess(a, b, c);
    MulLess(b, a, c);
  }

  lemma MulLess(a: real, b: real, c: real)
    requires c > 0.0
    ensures a < b ==> a * c < b * c
  {
  }

  lemma CrossLess(a: real, b: real, c: real, d: real)
    requires b > 0.0 && d > 0.0 && a * d < c * b
    ensures a / b < c / d
  {
    var p, q := a / b, c / d;
    assert p * b == a && q * d == c;
    assert p * (b * d) == (p * b) * d && q * (b * d) == (q * d) * b;
    MulOrder(p, q, b * d);
  }

  lemma ShareGrows(x: real, y: real, k: real)
    requires 0.0 < x < y && k > 0.0
    ensures x / (x + k) < y / (y + k) < 1.0
  {
    MulOrder(x, y, k);
    assert x * (y + k) == x * y + x * k;
    assert y * (x + k) == x * y + y * k;
    CrossLess(x, x + k, y, y + k);
    CrossLess(y, y + k, 1.0, 1.0);
  }

  /** What is added to the frequency in the denominator: the only part in which the length counts. */
  ghost function Damping(dl: real, avg: real): real
    requires avg > 0.0
  {
    1.2 * (0.25 + 0.75 * (dl / avg))
  }

  lemma ShareOf(idf: real, tf: real, dl: real, avg: real)
    requires idf > 0.0 && tf > 0.0 && dl >= 0.0 && avg > 0.0
    ensures Damping(dl, avg) > 0.0
    ensures Bm25(idf, tf, dl, avg) == 2.2 * idf * (tf / (tf + Damping(dl, avg)))
  {
    assert dl / avg >= 0.0;
  }

  /** The score of a term in a chunk falls with the chunk's length. */
  lemma LongerScoresLess(idf: real, tf: real, dl: real, longer: real, avg: real)
    requires idf > 0.0 && tf > 0.0 && 0.0 <= dl < longer && avg > 0.0
    ensures Bm25(idf, tf, longer, avg) < Bm25(idf, tf, dl, avg)
  {
    ShareOf(idf, tf, dl, avg);
    ShareOf(idf, tf, longer, avg);
    assert dl / avg < longer / avg;
    QuotientFalls(tf, tf + Damping(dl, avg), tf + Damping(longer, avg));
  }

  /** It grows with the frequency, and stays between 0 and 2.2 times the term's idf. */
  lemma FrequentScoresMore(idf: real, tf: real, more: real, dl: real, avg: real)
    requires idf > 0.0 && 0.0 < tf < more && dl >= 0.0 && avg > 0.0
    ensures 0.0 < Bm25(idf, tf, dl, avg) < Bm25(idf, more, dl, avg) < 2.2 * idf
  {
    ShareOf(idf, tf, dl, avg);
    ShareOf(idf, more, dl, avg);
    var d := Damping(dl, avg);
    ShareGrows(tf, more, d);
    ScaledOrder(2.2 * idf, tf / (tf + d), more / (more + d));
  }

  lemma ScaledOrder(c: real, x: real, y: real)
    requires c > 0.0 && 0.0 < x < y < 1.0
    ensures 0.0 < c * x < c * y < c
  {
    MulOrder(0.0, x, c);
    MulOrder(x, y, c);
    MulOrder(y, 1.0, c);
  }

  /** It grows with the idf, in proportion. */
  lemma ScoresWithIdf(idf: real, times: real, tf: real, dl: real, avg: real)
    requires idf > 0.0 && times > 0.0 && tf > 0.0 && dl >= 0.0 && avg > 0.0
    ensures Bm25(times * idf, tf, dl, avg) == times * Bm25(idf, tf, dl, avg)
  {
    ShareOf(idf, tf, dl, avg);
    ShareOf(times * idf, tf, dl, avg);
  }

  /** One occurrence in a chunk of average length scores the term's idf; half of the bound of 2.2 times
      the idf takes a frequency of 1.2 there, and a quarter of that in a chunk of hardly any length. */
  lemma ScoreScale(idf: real, avg: real)
    requires idf > 0.0 && avg > 0.0
    ensures Bm25(idf, 1.0, avg, avg) == idf
    ensures Bm25(idf, 0.3, 0.0, avg) == 1.1 * idf && Bm25(idf, 1.2, avg, avg) == 1.1 * idf
  {
    ShareOf(idf, 1.0, avg, avg);
    ShareOf(idf, 0.3, 0.0, avg);
    ShareOf(idf, 1.2, avg, avg);
  }

  /** However little short of it a bound is, some frequency scores above that. */
  lemma Approaching(idf: real, dl: real, avg: real, share: real) returns (tf: real)
    requires idf > 0.0 && avg > 0.0 && dl >= 0.0 && 0.0 < share < 1.0
    ensures tf > 0.0 && Bm25(idf, tf, dl, avg) > share * 2.2 * idf
  {
    ShareOf(idf, 1.0, dl, avg);
    var d := Damping(dl, avg);
    tf := Enough(d, share);
    ShareOf(idf, tf, dl, avg);
    CrossLess(share, 1.0, tf, tf + d);
    assert 2.2 * idf * share < 2.2 * idf * (tf / (tf + d));
  }

  lemma Enough(d: real, share: real) returns (tf: real)
    requires d > 0.0 && 0.0 < share < 1.0
    ensures tf > 0.0 && share * (tf + d) < tf
  {
    CrossLess(0.0, 1.0, d, 1.0 - share);
    tf := d / (1.0 - share);
    assert tf * (1.0 - share) == d;
    assert share * (tf + d) == tf - d + share * d;
    assert share * d < 1.0 * d;
  }

  ghost predicate Increasing(ln: real -> real) {
    forall x, y :: 0.0 < x < y ==> ln(x) < ln(y)
  }

  /** A rarer term weighs more, and with ln(1) = 0 no term found in the vault weighs nothing. */
  lemma RarerWeighsMore(ln: real -> real, n: real, df: real, more: real)
    requires Increasing(ln) && 0.0 <= df < more <= n
    ensures IdfOf(ln, n, more) < IdfOf(ln, n, df)
    ensures ln(1.0) == 0.0 ==> IdfOf(ln, n, more) > 0.0
  {
    IdfIs(ln, n, df);
    IdfIs(ln, n, more);
    QuotientFalls(n + 1.0, df + 0.5, more + 0.5);
    CrossLess(1.0, 1.0, n + 1.0, more + 0.5);
  }

  /** A term in half of the chunks weighs the logarithm of 2. */
  lemma HalfWeighsLn2(ln: real -> real, df: real)
    requires df >= 0.0
    ensures IdfOf(ln, 2.0 * df, df) == ln(2.0)
  {
    IdfIs(ln, 2.0 * df, df);
    var x, d := 2.0 * df + 1.0, df + 0.5;
    assert x == 2.0 * d;
    DivTimes(x, d);
    MulOrder(x / d, 2.0, d);
  }

  lemma DivTimes(x: real, d: real)
    requires d > 0.0
    ensures x / d * d == x
  {
  }

  lemma IdfIs(ln: real -> real, n: real, df: real)
    requires df >= 0.0
    ensures IdfOf(ln, n, df) == ln((n + 1.0) / (df + 0.5))
  {
    var d := df + 0.5;
    assert (n - df + 0.5) == (n + 1.0) - d;
    Split(n + 1.0, d);
  }

  lemma Split(a: real, d: real)
    requires d > 0.0
    ensures 1.0 + (a - d) / d == a / d
  {
    var u, v := (a - d) / d, a / d;
    assert u * d == a - d && v * d == a;
    assert (1.0 + u) * d == d + u * d;
    MulOrder(1.0 + u, v, d);
  }

  // ----- And so an answer -----

  /** Of two chunks in an answer, the one with the higher score comes first. */
  lemma HigherComesFirst(ln: real -> real, docs: Docs, terms: seq<Term>, k: int, hits: seq<Hit>, i: nat, j: nat)
    requires IsAnswer(ln, docs, terms, k, hits) && i < |hits| && j < |hits|
    requires Score(ln, docs, terms, hits[i].id) > Score(ln, docs, terms, hits[j].id)
    ensures i < j
  {
    var scores, all :| IsScoreTable(ln, docs, terms, scores) && Ranks(all, scores) && hits == TopK(all, k);
    HigherRanksFirst(all, scores, k, i, j);
  }

  lemma ScoreOfOne(ln: real -> real, docs: Docs, q: Term, id: Bytes)
    ensures Score(ln, docs, [q], id) == Part(ln, docs, q, id)
  {
    assert [q][..0] == [];
  }

  /** Among chunks hit by one term equally often, the shorter ranks above. */
  lemma ShorterComesFirst(ln: real -> real, docs: Docs, q: Term, k: int, hits: seq<Hit>, i: nat, j: nat)
    requires IsAnswer(ln, docs, [q], k, hits) && i < |hits| && j < |hits|
    requires var a, b := hits[i].id, hits[j].id;
             && a in docs && b in docs && |docs[a]| < |docs[b]|
             && a in Expanded(docs, q) && b in Expanded(docs, q) && Expanded(docs, q)[a] == Expanded(docs, q)[b] > 0.0
    requires Idf(ln, docs, q) > 0.0 && AverageLen(docs) > 0.0
    ensures i < j
  {
    var a, b := hits[i].id, hits[j].id;
    ScoreOfOne(ln, docs, q, a);
    ScoreOfOne(ln, docs, q, b);
    LongerScoresLess(Idf(ln, docs, q), Expanded(docs, q)[a], |docs[a]| as real, |docs[b]| as real, AverageLen(docs));
    HigherComesFirst(ln, docs, [q], k, hits, i, j);
  }

  /** Among equally long chunks, the one in which the term weighs more. */
  lemma FrequentComesFirst(ln: real -> real, docs: Docs, q: Term, k: int, hits: seq<Hit>, i: nat, j: nat)
    requires IsAnswer(ln, docs, [q], k, hits) && i < |hits| && j < |hits|
    requires var a, b := hits[i].id, hits[j].id;
             && a in docs && b in docs && |docs[a]| == |docs[b]|
             && a in Expanded(docs, q) && b in Expanded(docs, q) && Expanded(docs, q)[a] > Expanded(docs, q)[b] > 0.0
    requires Idf(ln, docs, q) > 0.0 && AverageLen(docs) > 0.0
    ensures i < j
  {
    var a, b := hits[i].id, hits[j].id;
    ScoreOfOne(ln, docs, q, a);
    ScoreOfOne(ln, docs, q, b);
    FrequentScoresMore(Idf(ln, docs, q), Expanded(docs, q)[b], Expanded(docs, q)[a], |docs[a]| as real,
                       AverageLen(docs));
    HigherComesFirst(ln, docs, [q], k, hits, i, j);
  }

  /** The average length of one chunk is its own, and of two chunks half of their sum. */
  lemma AverageIsMean(a: Bytes, b: Bytes, x: seq<Token>, y: seq<Token>)
    requires a != b
    ensures AverageLen(map[a := x]) == |x| as real
    ensures AverageLen(map[a := x, b := y]) == (|x| + |y|) as real / 2.0
  {
    var one, two := map[a := x], map[a := x, b := y];
    TotalWithout(one, a);
    TotalWithout(two, b);
    assert one - {a} == map[] && two - {b} == one;
    assert one.Keys == {a} && two.Keys == {a, b};
    assert |one| == |one.Keys| == 1 && |two| == |two.Keys| == 2;
  }

  /** Scores add up over the words of a query, however it is split. */
  lemma {:induction false} ScoresAdd(ln: real -> real, docs: Docs, a: seq<Term>, b: seq<Term>, id: Bytes)
    ensures Score(ln, docs, a + b, id) == Score(ln, docs, a, id) + Score(ln, docs, b, id)
    decreases |b|
  {
    if b == [] {
      assert a + b == a;
    } else {
      assert (a + b)[..|a + b| - 1] == a + b[..|b| - 1];
      ScoresAdd(ln, docs, a, b[..|b| - 1], id);
    }
  }

  /** A term that occurs n times in one field. */
  function Repeated(name: string, t: Term, n: nat): Field {
    Field(name, Times(t, n))
  }

  function Times(t: Term, n: nat): (ts: seq<Term>)
    ensures |ts| == n
  {
    if n == 0 then [] else Times(t, n - 1) + [t]
  }

  /** An occurrence in a title counts like three in the body, and one in a heading like two. */
  lemma FieldsOutweigh(t: Term, body: string, n: nat)
    requires body != "title" && body != "heading" && body != "headings" && n > 0
    ensures Tf(TokensOf([Repeated("title", t, n)]), t, false) == Tf(TokensOf([Repeated(body, t, 3 * n)]), t, false)
    ensures Tf(TokensOf([Repeated("heading", t, n)]), t, false) == Tf(TokensOf([Repeated(body, t, 2 * n)]), t, false)
    ensures Tf(TokensOf([Repeated("headings", t, n)]), t, false) == Tf(TokensOf([Repeated(body, t, 2 * n)]), t, false)
    ensures Tf(TokensOf([Repeated(body, t, n)]), t, false) == n as real
  {
    OneField("title", t, n);
    OneField("heading", t, n);
    OneField("headings", t, n);
    OneField(body, t, n);
    OneField(body, t, 2 * n);
    OneField(body, t, 3 * n);
    Summed(n);
  }

  function Sum(n: nat, w: real): real {
    if n == 0 then 0.0 else Sum(n - 1, w) + w
  }

  lemma {:induction false} Summed(n: nat)
    ensures Sum(n, 1.0) == n as real
    ensures Sum(n, 2.0) == Sum(2 * n, 1.0) && Sum(n, 3.0) == Sum(3 * n, 1.0)
  {
    if n > 0 {
      Summed(n - 1);
      assert Sum(2 * n, 1.0) == Sum(2 * n - 1, 1.0) + 1.0;
      assert Sum(3 * n, 1.0) == Sum(3 * n - 2, 1.0) + 2.0;
    }
  }

  lemma OneField(name: string, t: Term, n: nat)
    requires n > 0
    ensures Tf(TokensOf([Repeated(name, t, n)]), t, false) == Sum(n, FieldWeight(name))
  {
    var w := FieldWeight(name);
    OnlyField(Repeated(name, t, n));
    Copies(t, w, n);
    CopiesWeigh(t, w, n);
    OnlyTerm(Weighted(Times(t, n), w), t);
  }

  lemma OnlyField(f: Field)
    ensures TokensOf([f]) == Weighted(f.terms, FieldWeight(f.name))
  {
    assert [f][..0] == [];
  }

  lemma OnlyTerm(toks: seq<Token>, t: Term)
    requires toks != [] && OnlyHas(toks, t)
    ensures TermsMatching(toks, t, false) == {t}
  {
    assert toks[0] in toks && toks[0].term in Terms(toks);
    assert Matches(t, false, t);
  }

  lemma OneMoreToken(ts: seq<Term>, t: Term, w: Weight)
    ensures var before, toks := Weighted(ts, w), Weighted(ts + [t], w);
            toks == before + [Token(t, w)] && WeightIn(toks, {t}) == WeightIn(before, {t}) + w
  {
    assert (ts + [t])[..|ts|] == ts;
    var before := Weighted(ts, w);
    assert (before + [Token(t, w)])[..|before|] == before;
  }

  lemma {:induction false} Copies(t: Term, w: Weight, n: nat)
    ensures var toks := Weighted(Times(t, n), w); |toks| == n && OnlyHas(toks, t)
  {
    if n > 0 {
      Copies(t, w, n - 1);
      OneMoreToken(Times(t, n - 1), t, w);
      OnlyHasMore(Weighted(Times(t, n - 1), w), t, w);
    }
  }

  ghost predicate OnlyHas(toks: seq<Token>, t: Term) {
    forall i :: 0 <= i < |toks| ==> toks[i].term == t
  }

  lemma OnlyHasMore(toks: seq<Token>, t: Term, w: Weight)
    requires OnlyHas(toks, t)
    ensures OnlyHas(toks + [Token(t, w)], t)
  {
  }

  lemma {:induction false} CopiesWeigh(t: Term, w: Weight, n: nat)
    ensures WeightIn(Weighted(Times(t, n), w), {t}) == Sum(n, w)
  {
    if n > 0 {
      CopiesWeigh(t, w, n - 1);
      OneMoreToken(Times(t, n - 1), t, w);
    }
  }

  /** What an unlimited answer names: the chunks that have a term of the query, or, for a term of fewer than
      four bytes that no chunk has, a term it is a prefix of. */
  lemma AnswerFindsIff(ln: real -> real, docs: Docs, terms: seq<Term>, hits: seq<Hit>, id: Bytes)
    requires IsAnswer(ln, docs, terms, 0, hits)
    ensures (exists h :: h in hits && h.id == id) <==>
            id in docs && id != [] && exists i :: 0 <= i < |terms| && Finds(docs, terms[i], id)
  {
    var scores, all :| IsScoreTable(ln, docs, terms, scores) && Ranks(all, scores) && hits == TopK(all, 0);
    if id in scores {
      assert Hit(id, scores[id]) in all;
    }
    assert Hits(docs, terms, id) <==> id in scores;
    forall i | 0 <= i < |terms| ensures id in Expanded(docs, terms[i]) <==>
                                          id in docs && id != [] && Finds(docs, terms[i], id) {
      ExpandedIff(docs, terms[i], id);
    }
  }

  ghost predicate Finds(docs: Docs, q: Term, id: Bytes)
    requires id in docs
  {
    || q in Terms(docs[id])
    || (|q| < 4 && (forall x :: x in docs && x != [] ==> q !in Terms(docs[x]))
                && exists t :: t in Terms(docs[id]) && IsPrefix(q, t))
  }

  lemma ExpandedIff(docs: Docs, q: Term, id: Bytes)
    ensures id in Expanded(docs, q) <==> id in docs && id != [] && Finds(docs, q, id)
  {
    forall x, prefix | x in docs ensures
        TermsMatching(docs[x], q, prefix) != {} <==> exists t :: t in Terms(docs[x]) && Matches(q, prefix, t) {
      if t :| t in Terms(docs[x]) && Matches(q, prefix, t) {
        assert t in TermsMatching(docs[x], q, prefix);
      }
    }
    var exact := Posts(docs, q, false);
    if exact == map[] {
      forall x | x in docs && x != [] ensures q !in Terms(docs[x]) {
        assert x !in exact;
        assert Matches(q, false, q);
      }
    } else {
      var x :| x in exact;
      assert exists t :: t in Terms(docs[x]) && Matches(q, false, t);
    }
  }

  // ----- Scanning -----

  /** The terms of a chunk whose postings are among the keys visited. */
  function Visited(ws: Workspace, toks: seq<Token>, id: Bytes, done: set<Bytes>): set<Bytes> {
    set t | t in Terms(toks) && PostingKey(ws, t, id) in done :: t
  }

  ghost predicate ScannedAt(ws: Workspace, docs: Docs, done: set<Bytes>, posts: map<Bytes, real>, id: Bytes) {
    && (id in posts <==> id in docs && id != [] && Visited(ws, docs[id], id, done) != {})
    && (id in posts ==> posts[id] == WeightIn(docs[id], Visited(ws, docs[id], id, done)))
  }

  ghost predicate Scanned(ws: Workspace, docs: Docs, done: set<Bytes>, posts: map<Bytes, real>) {
    forall id :: ScannedAt(ws, docs, done, posts, id)
  }

  lemma VisitedStep(ws: Workspace, toks: seq<Token>, id: Bytes, done: set<Bytes>, t: Term, jd: Bytes)
    requires t in Terms(toks) || id != jd
    ensures Visited(ws, toks, id, done + {PostingKey(ws, t, jd)})
            == if id == jd then Visited(ws, toks, id, done) + {t} else Visited(ws, toks, id, done)
  {
    forall u | u in Terms(toks) && PostingKey(ws, u, id) == PostingKey(ws, t, jd) ensures u == t && id == jd {
      assert TermShaped(u);
      PostingKeyInjective(ws, u, id, t, jd);
    }
  }

  lemma ScanStep(ws: Workspace, docs: Docs, done: set<Bytes>, posts: map<Bytes, real>, t: Term, jd: Bytes,
                 next: map<Bytes, real>)
    requires Scanned(ws, docs, done, posts) && jd in docs && t in Terms(docs[jd])
    requires PostingKey(ws, t, jd) !in done
    requires next == if jd == [] then posts else AddTo(posts, jd, WeightIn(docs[jd], {t}))
    ensures Scanned(ws, docs, done + {PostingKey(ws, t, jd)}, next)
  {
    forall id ensures ScannedAt(ws, docs, done + {PostingKey(ws, t, jd)}, next, id) {
      assert ScannedAt(ws, docs, done, posts, id);
      if id in docs {
        VisitedStep(ws, docs[id], id, done, t, jd);
        if id == jd {
          WeightAdds(docs[id], Visited(ws, docs[id], id, done), t);
          WeightPositive(docs[id], {});
        }
      }
    }
  }

  /** What the store must hold for a key range to be scanned for a query term. */
  ghost predicate RangeFor(ws: Workspace, lower: Bytes, upper: Bytes, q: Bytes, prefix: bool) {
    && (forall t: Term, id :: InRange(PostingKey(ws, t, id), lower, upper) <==> Matches(q, prefix, t))
    && (forall k :: InRange(k, lower, upper) ==> IsPrefix([5] + ws, k))
  }

  /** A full scan of the range yields the chunks the term hits. */
  lemma ScanComplete(ws: Workspace, store: Store, docs: Docs, lower: Bytes, upper: Bytes, q: Bytes, prefix: bool,
                     done: set<Bytes>, posts: map<Bytes, real>)
    requires PostingsRight(ws, store, docs) && RangeFor(ws, lower, upper, q, prefix)
    requires forall k :: k in done <==> k in store && InRange(k, lower, upper)
    requires Scanned(ws, docs, done, posts)
    ensures posts == Posts(docs, q, prefix)
  {
    forall id | id in docs ensures Visited(ws, docs[id], id, done) == TermsMatching(docs[id], q, prefix) {
      VisitedAll(ws, store, docs, lower, upper, q, prefix, done, id);
    }
    ScannedIsPosts(ws, docs, q, prefix, done, posts);
  }

  lemma ScannedIsPosts(ws: Workspace, docs: Docs, q: Bytes, prefix: bool, done: set<Bytes>, posts: map<Bytes, real>)
    requires Scanned(ws, docs, done, posts)
    requires forall id :: id in docs ==> Visited(ws, docs[id], id, done) == TermsMatching(docs[id], q, prefix)
    ensures posts == Posts(docs, q, prefix)
  {
    forall id ensures id in posts <==> id in Posts(docs, q, prefix)
      ensures id in posts ==> id in docs && posts[id] == Tf(docs[id], q, prefix)
    {
      assert ScannedAt(ws, docs, done, posts, id);
    }
    assert posts.Keys == Posts(docs, q, prefix).Keys;
  }

  lemma VisitedAll(ws: Workspace, store: Store, docs: Docs, lower: Bytes, upper: Bytes, q: Bytes, prefix: bool,
                   done: set<Bytes>, id: Bytes)
    requires PostingsRight(ws, store, docs) && RangeFor(ws, lower, upper, q, prefix) && id in docs
    requires forall k :: k in done <==> k in store && InRange(k, lower, upper)
    ensures Visited(ws, docs[id], id, done) == TermsMatching(docs[id], q, prefix)
  {
    forall t | t in Terms(docs[id]) ensures PostingKey(ws, t, id) in done <==> Matches(q, prefix, t) {
      assert TermShaped(t);
      var term: Term := t;
      assert PostingKey(ws, term, id) in store;
    }
  }

  // ----- Scores -----

  ghost predicate Small(docs: Docs) {
    forall id :: id in docs ==> |docs[id]| < 65536
  }

  ghost predicate CacheRight(ln: real -> real, docs: Docs, cache: map<Bytes, real>) {
    forall q :: q in cache ==> cache[q] == Idf(ln, docs, q)
  }

  ghost predicate ScoresFor(ln: real -> real, docs: Docs, terms: seq<Term>, q: Term, done: set<Bytes>,
                            scores: map<Bytes, real>) {
    && (forall id :: id in scores <==> Hits(docs, terms, id) || id in done)
    && (forall id :: id in scores ==>
          scores[id] == Score(ln, docs, terms, id) + (if id in done then Part(ln, docs, q, id) else 0.0))
  }

  lemma {:induction false} ScoreOfMissed(ln: real -> real, docs: Docs, terms: seq<Term>, id: Bytes)
    requires !Hits(docs, terms, id)
    ensures Score(ln, docs, terms, id) == 0.0
    decreases |terms|
  {
    if terms != [] {
      var n := |terms| - 1;
      assert id !in Expanded(docs, terms[n]);
      assert forall i :: 0 <= i < n ==> terms[..n][i] == terms[i];
      ScoreOfMissed(ln, docs, terms[..n], id);
    }
  }

  lemma ScoreStep(ln: real -> real, docs: Docs, terms: seq<Term>, q: Term, done: set<Bytes>, scores: map<Bytes, real>,
                  id: Bytes)
    requires ScoresFor(ln, docs, terms, q, done, scores) && id !in done
    ensures ScoresFor(ln, docs, terms, q, done + {id}, AddTo(scores, id, Part(ln, docs, q, id)))
  {
    if id !in scores {
      ScoreOfMissed(ln, docs, terms, id);
    }
  }

  lemma HitsStep(docs: Docs, terms: seq<Term>, q: Term, id: Bytes)
    ensures Hits(docs, terms + [q], id) <==> Hits(docs, terms, id) || id in Expanded(docs, q)
  {
    var more := terms + [q];
    if id in Expanded(docs, q) {
      assert id in Expanded(docs, more[|terms|]);
    }
    if Hits(docs, terms, id) {
      var i :| 0 <= i < |terms| && id in Expanded(docs, terms[i]);
      assert id in Expanded(docs, more[i]);
    }
  }

  lemma ScoreSnoc(ln: real -> real, docs: Docs, terms: seq<Term>, q: Term, id: Bytes)
    ensures Score(ln, docs, terms + [q], id) == Score(ln, docs, terms, id) + Part(ln, docs, q, id)
  {
    assert (terms + [q])[..|terms|] == terms;
  }

  lemma PartOfMissed(ln: real -> real, docs: Docs, q: Term, id: Bytes)
    requires id !in Expanded(docs, q)
    ensures Part(ln, docs, q, id) == 0.0
  {
  }

  lemma TermDone(ln: real -> real, docs: Docs, terms: seq<Term>, q: Term, done: set<Bytes>, scores: map<Bytes, real>)
    requires ScoresFor(ln, docs, terms, q, done, scores) && done == Expanded(docs, q).Keys
    ensures IsScoreTable(ln, docs, terms + [q], scores)
  {
    forall id
      ensures id in scores <==> Hits(docs, terms + [q], id)
      ensures id in scores ==> scores[id] == Score(ln, docs, terms + [q], id)
    {
      HitsStep(docs, terms, q, id);
      ScoreSnoc(ln, docs, terms, q, id);
      if id !in done {
        PartOfMissed(ln, docs, q, id);
      }
    }
  }

  lemma TermBegins(ln: real -> real, docs: Docs, terms: seq<Term>, i: nat, scores: map<Bytes, real>)
    requires i < |terms| && IsScoreTable(ln, docs, terms[..i], scores)
    ensures ScoresFor(ln, docs, terms[..i], terms[i], {}, scores)
  {
  }

  lemma TermEnds(ln: real -> real, docs: Docs, terms: seq<Term>, i: nat, done: set<Bytes>, scores: map<Bytes, real>)
    requires i < |terms| && done == Expanded(docs, terms[i]).Keys
    requires ScoresFor(ln, docs, terms[..i], terms[i], done, scores)
    ensures IsScoreTable(ln, docs, terms[..i + 1], scores)
  {
    TermDone(ln, docs, terms[..i], terms[i], done, scores);
    assert terms[..i + 1] == terms[..i] + [terms[i]];
  }

  // ----- The index -----

  /** A field of a chunk: its name, and the terms its text is tokenized into. */
  datatype Field = Field(name: string, terms: seq<Term>)

  function TokensOf(fields: seq<Field>): seq<Token>
    decreases fields
  {
    if fields == [] then []
    else
      var last := fields[|fields| - 1];
      TokensOf(fields[..|fields| - 1]) + Weighted(last.terms, FieldWeight(last.name))
  }

  function Weighted(terms: seq<Term>, w: Weight): seq<Token>
    decreases terms
  {
    if terms == [] then [] else Weighted(terms[..|terms| - 1], w) + [Token(terms[|terms| - 1], w)]
  }

  class FTS {
    const ws: Workspace
    const ln: real -> real
    var store: Store
    var idfCache: map<Bytes, real>
    /** The indexed chunks. */
    ghost var docs: Docs

    ghost predicate Valid()
      reads this
    {
      Indexes(ws, store, docs) && CacheRight(ln, docs, idfCache)
    }

    constructor (ws: Workspace, ln: real -> real, store: Store, ghost docs: Docs)
      requires Indexes(ws, store, docs)
      ensures Valid() && this.ws == ws && this.ln == ln && this.store == store && this.docs == docs
    {
      this.ws, this.ln, this.store, this.docs := ws, ln, store, docs;
      this.idfCache := map[];
    }

    /** A chunk already indexed, or without terms, changes nothing. */
    method Index(id: Bytes, fields: seq<Field>)
      requires Valid()
      modifies this
      ensures Valid()
      ensures store == AfterIndex(ws, old(store), id, TokensOf(fields))
      ensures docs == if id in old(docs) || TokensOf(fields) == [] then old(docs) else old(docs)[id := TokensOf(fields)]
    {
      IndexKeeps(ws, store, docs, id, TokensOf(fields));
      IndexedIff(ws, store, docs, id);
      if IndexedKey(ws, id) !in store {
        var counts, len := CountTerms(fields);
        TermsOrNone(TokensOf(fields));
        if counts != map[] {
          var batch := Batch(id, counts, len, TokensOf(fields));
          Replace(store + batch, docs[id := TokensOf(fields)]);
        }
      }
    }

    /** Postings, the indexed entry and the new statistics, to be written together. */
    method Batch(id: Bytes, counts: map<Bytes, real>, len: nat, ghost toks: seq<Token>) returns (batch: Store)
      requires IndexedKey(ws, id) !in store && CountsOf(counts, toks) && len == |toks| && toks != []
      ensures store + batch == AfterIndex(ws, store, id, toks)
    {
      batch := PostingBatch(id, counts, len, toks);
      batch := batch[IndexedKey(ws, id) := DocLen(Stored(len))];
      var s := ReadStats(store, ws);
      batch := batch[StatsKey(ws) := Stats(s.0 + 1, s.1 + len)];
      BatchCommits(ws, store, id, toks, batch);
    }

    /** Weighted counts per term, over all fields, and how many terms there are. */
    method CountTerms(fields: seq<Field>) returns (counts: map<Bytes, real>, len: nat)
      ensures CountsOf(counts, TokensOf(fields)) && len == |TokensOf(fields)|
    {
      counts, len := map[], 0;
      ghost var toks: seq<Token> := [];
      for f := 0 to |fields|
        invariant toks == TokensOf(fields[..f]) && CountsOf(counts, toks) && len == |toks|
      {
        counts, len := CountField(counts, len, fields[f].terms, FieldWeight(fields[f].name), toks);
        assert fields[..f + 1][..f] == fields[..f];
        toks := TokensOf(fields[..f + 1]);
      }
      assert fields[..|fields|] == fields;
    }

    method CountField(counts0: map<Bytes, real>, len0: nat, terms: seq<Term>, w: Weight, ghost before: seq<Token>)
      returns (counts: map<Bytes, real>, len: nat)
      requires CountsOf(counts0, before) && len0 == |before|
      ensures CountsOf(counts, before + Weighted(terms, w)) && len == |before + Weighted(terms, w)|
    {
      counts, len := counts0, len0;
      ghost var toks := before;
      assert before + Weighted([], w) == before;
      for i := 0 to |terms|
        invariant toks == before + Weighted(terms[..i], w)
        invariant CountsOf(counts, toks) && len == |toks|
      {
        CountStep(counts, toks, Token(terms[i], w));
        counts := AddTo(counts, terms[i], w);
        toks := toks + [Token(terms[i], w)];
        len := len + 1;
        assert terms[..i + 1][..i] == terms[..i];
      }
      assert terms[..|terms|] == terms;
    }

    method PostingBatch(id: Bytes, counts: map<Bytes, real>, len: nat, ghost toks: seq<Token>) returns (batch: Store)
      requires CountsOf(counts, toks) && len == |toks|
      ensures batch == Postings(ws, id, toks)
    {
      batch := map[];
      var left := counts.Keys;
      while left != {}
        invariant left <= counts.Keys
        invariant forall t: Term :: t in counts.Keys - left ==> PostingKey(ws, t, id) in batch
        invariant forall k :: k in batch ==> k in Postings(ws, id, toks) && batch[k] == Postings(ws, id, toks)[k]
        decreases left
      {
        var t :| t in left;
        assert TermShaped(t);
        PostingsAt(ws, id, toks, t, id);
        batch := batch[PostingKey(ws, t, id) := Posting(counts[t], Stored(len))];
        left := left - {t};
      }
      forall k | k in Postings(ws, id, toks) ensures k in batch {
        PostingsAreKeys(ws, id, toks, k);
      }
    }

    /** `terms` are those of the text the caller passes. When that text has every term of the indexed
        one, and the chunk is not too long, exactly that chunk leaves the index. */
    method Delete(id: Bytes, terms: seq<Term>)
      requires Valid()
      modifies this
      ensures store == AfterDelete(ws, old(store), id, TermSet(terms))
      ensures Deletable(old(docs), id, TermSet(terms)) ==> Valid() && docs == old(docs) - {id}
    {
      IndexedIff(ws, store, docs, id);
      if IndexedKey(ws, id) in store {
        DeleteKeepsIf(ws, store, docs, id, TermSet(terms));
        var next := Removal(id, terms);
        Replace(next, docs - {id});
      } else {
        assert docs - {id} == docs;
      }
    }

    /** Every write makes every cached IDF stale. */
    method Replace(next: Store, ghost left: Docs)
      modifies this
      ensures store == next && docs == left && CacheRight(ln, docs, idfCache)
    {
      store := next;
      idfCache := map[];
      docs := left;
    }

    /** The store without the chunk's entry and without the postings of the given terms. */
    method Removal(id: Bytes, terms: seq<Term>) returns (next: Store)
      requires IndexedKey(ws, id) in store
      ensures next == AfterDelete(ws, store, id, TermSet(terms))
    {
      var len := StoredLen(ws, store, id);
      var unique: set<Bytes> := {};
      for i := 0 to |terms|
        invariant unique == TermSet(terms[..i])
      {
        TermSetStep(terms, i);
        unique := unique + {terms[i]};
      }
      assert terms[..|terms|] == terms;
      var gone: set<Bytes> := {};
      var left := unique;
      while left != {}
        invariant left <= unique && gone == PostingKeys(ws, id, unique - left)
        decreases left
      {
        var t :| t in left;
        assert unique - (left - {t}) == (unique - left) + {t};
        gone := gone + {PostingKey(ws, t, id)};
        left := left - {t};
      }
      assert unique - left == unique;
      next := store - gone - {IndexedKey(ws, id)};
      var s := ReadStats(store, ws);
      var n := if s.0 > 0 then s.0 - 1 else s.0;
      var total := if s.1 >= len then s.1 - len else s.1;
      next := next[StatsKey(ws) := Stats(n, total)];
    }

    // ----- Search -----

    method ScanTerm(q: Term) returns (posts: map<Bytes, real>)
      requires PostingsRight(ws, store, docs)
      ensures posts == Posts(docs, q, false)
    {
      var lower := TermPrefix(ws, q);
      ExactRangeFor(ws, q);
      posts := ScanRange(lower, lower + [1], q, q, false);
    }

    method ScanPrefix(q: Term) returns (posts: map<Bytes, real>)
      requires PostingsRight(ws, store, docs)
      ensures posts == Posts(docs, q, true)
    {
      var lower := TermPrefix(ws, q);
      PrefixRangeFor(ws, q);
      posts := ScanRange(lower, Bump(lower), [], q, true);
    }

    /** Collects the postings in a key range. A known term tells where the chunk id starts; otherwise
        the zero byte does. */
    method ScanRange(lower: Bytes, upper: Bytes, knownTerm: Bytes, ghost q: Term, ghost prefix: bool)
      returns (posts: map<Bytes, real>)
      requires PostingsRight(ws, store, docs) && RangeFor(ws, lower, upper, q, prefix)
      requires knownTerm != [] ==> knownTerm == q && !prefix
      ensures posts == Posts(docs, q, prefix)
    {
      posts := map[];
      var left := set k | k in store && InRange(k, lower, upper) :: k;
      ghost var all := left;
      NothingScanned(ws, docs);
      while left != {}
        invariant left <= all && Scanned(ws, docs, all - left, posts)
        decreases left
      {
        var key :| key in left;
        assert all - (left - {key}) == (all - left) + {key};
        posts := Collect(posts, key, knownTerm, q, prefix, all - left);
        left := left - {key};
      }
      assert all - left == all;
      ScanComplete(ws, store, docs, lower, upper, q, prefix, all, posts);
    }

    method Collect(posts: map<Bytes, real>, key: Bytes, knownTerm: Bytes, ghost q: Term, ghost prefix: bool,
                   ghost done: set<Bytes>)
      returns (next: map<Bytes, real>)
      requires PostingsRight(ws, store, docs) && key in store && IsPrefix([5] + ws, key)
      requires forall t: Term, id :: key == PostingKey(ws, t, id) ==> Matches(q, prefix, t)
      requires knownTerm != [] ==> knownTerm == q && !prefix
      requires Scanned(ws, docs, done, posts) && key !in done
      ensures Scanned(ws, docs, done + {key}, next)
    {
      ghost var t, jd := KeyDecoded(ws, store, docs, key);
      var id := IdOf(key, knownTerm, t, jd);
      var tf := if store[key].Posting? then store[key].tf else 0.0;
      next := if id == [] then posts else AddTo(posts, id, tf);
      ScanStep(ws, docs, done, posts, t, jd, next);
    }

    method IdOf(key: Bytes, knownTerm: Bytes, ghost t: Term, ghost jd: Bytes) returns (id: Bytes)
      requires key == PostingKey(ws, t, jd) && (knownTerm != [] ==> knownTerm == t)
      ensures id == jd
    {
      KeyParts(ws, t, jd);
      if knownTerm != [] {
        var off := 9 + |knownTerm| + 1;
        id := if |key| > off then key[off..] else [];
      } else {
        id := ChunkIdFromKey(key);
      }
    }

    /** The cached IDF, or a fresh one that is cached for the next search. */
    method CachedIdf(q: Term, n: real, df: real) returns (idf: real)
      requires CacheRight(ln, docs, idfCache) && n == |docs| as real && df == |Expanded(docs, q)| as real
      modifies this`idfCache
      ensures idf == Idf(ln, docs, q) && CacheRight(ln, docs, idfCache)
    {
      if q in idfCache {
        return idfCache[q];
      }
      idf := IdfOf(ln, n, df);
      idfCache := idfCache[q := idf];
    }

    ghost predicate ScoredTo(terms: seq<Term>, i: nat, scores: map<Bytes, real>)
      reads this
    {
      i <= |terms| && IsScoreTable(ln, docs, terms[..i], scores)
    }

    /** Adds one query term to the scores. */
    method AddTerm(scores: map<Bytes, real>, q: Term, n: real, avg: real, ghost terms: seq<Term>, ghost i: nat)
      returns (next: map<Bytes, real>)
      requires PostingsRight(ws, store, docs) && IndexedRight(ws, store, docs) && CacheRight(ln, docs, idfCache)
      requires Small(docs) && i < |terms| && q == terms[i] && ScoredTo(terms, i, scores)
      requires n == |docs| as real && avg == AverageLen(docs)
      modifies this`idfCache
      ensures CacheRight(ln, docs, idfCache) && ScoredTo(terms, i + 1, next)
    {
      var posts := TermPosts(q);
      next := scores;
      TermBegins(ln, docs, terms, i, scores);
      if |posts| != 0 {
        var idf := CachedIdf(q, n, |posts| as real);
        PartsAreReady(ws, ln, store, docs, q, posts, idf, avg);
        next := AddPosts(scores, q, posts, idf, avg, terms[..i]);
      }
      TermEnds(ln, docs, terms, i, posts.Keys, next);
    }

    /** The postings of a term, or of every term it begins when it is short and has none. */
    method TermPosts(q: Term) returns (posts: map<Bytes, real>)
      requires PostingsRight(ws, store, docs)
      ensures posts == Expanded(docs, q)
    {
      posts := ScanTerm(q);
      if |posts| == 0 && |q| < 4 {
        posts := ScanPrefix(q);
      }
    }

    method AddPosts(scores: map<Bytes, real>, q: Term, posts: map<Bytes, real>, idf: real, avg: real,
                    ghost before: seq<Term>)
      returns (next: map<Bytes, real>)
      requires PartsReady(ws, ln, store, docs, q, posts, idf, avg)
      requires ScoresFor(ln, docs, before, q, {}, scores)
      ensures ScoresFor(ln, docs, before, q, posts.Keys, next)
    {
      next := scores;
      var left := posts.Keys;
      ghost var done: set<Bytes> := {};
      while left != {}
        invariant left <= posts.Keys && done == posts.Keys - left
        invariant ScoresFor(ln, docs, before, q, done, next)
        decreases left
      {
        var id :| id in left;
        MoveOne(posts.Keys, left, id);
        next := AddPost(next, q, id, posts[id], idf, avg, before, done, posts);
        done, left := done + {id}, left - {id};
      }
    }

    method AddPost(scores: map<Bytes, real>, q: Term, id: Bytes, tf: real, idf: real, avg: real,
                   ghost before: seq<Term>, ghost done: set<Bytes>, ghost posts: map<Bytes, real>)
      returns (next: map<Bytes, real>)
      requires id in posts && posts[id] == tf && PartsReady(ws, ln, store, docs, q, posts, idf, avg)
      requires ScoresFor(ln, docs, before, q, done, scores) && id !in done
      ensures ScoresFor(ln, docs, before, q, done + {id}, next)
    {
      var dl := StoredLen(ws, store, id) as real;
      if dl == 0.0 {
        dl := avg;
      }
      ScoreStep(ln, docs, before, q, done, scores, id);
      next := AddTo(scores, id, Bm25(idf, tf, dl, avg));
    }

    method Averages() returns (n: real, avg: real)
      requires StatsRight(ws, store, docs)
      ensures n == |docs| as real && avg == AverageLen(docs)
    {
      var st := ReadStats(store, ws);
      n, avg := st.0 as real, 0.0;
      if st.0 > 0 {
        avg := st.1 as real / st.0 as real;
      }
    }

    method ScoreAll(terms: seq<Term>, n: real, avg: real) returns (scores: map<Bytes, real>)
      requires PostingsRight(ws, store, docs) && IndexedRight(ws, store, docs)
      requires CacheRight(ln, docs, idfCache) && Small(docs)
      requires n == |docs| as real && avg == AverageLen(docs)
      modifies this`idfCache
      ensures CacheRight(ln, docs, idfCache) && ScoredTo(terms, |terms|, scores)
    {
      scores := map[];
      for i := 0 to |terms|
        invariant CacheRight(ln, docs, idfCache) && ScoredTo(terms, i, scores)
      {
        scores := AddTerm(scores, terms[i], n, avg, terms, i);
      }
    }

    /** Every chunk a query term hits, ranked by BM25 over the indexed chunks, cut to k. */
    method Search(terms: seq<Term>, k: int) returns (hits: seq<Hit>)
      requires Valid() && Small(docs)
      modifies this`idfCache
      ensures Valid() && IsAnswer(ln, docs, terms, k, hits)
    {
      var n, avg := Averages();
      var scores := ScoreAll(terms, n, avg);
      assert terms[..|terms|] == terms;
      var all := RankTable(scores);
      hits := TopK(all, k);
    }

    // ----- Migration -----

    /** Writes the index of every chunk, in batches, the statistics last. */
    method MigrateFromChunks(chunks: seq<Chunk>)
      modifies this`store, this`docs
      ensures store == AfterMigrate(ws, old(store), chunks)
      ensures docs == DocsOf(chunks)
      ensures old(Indexes(ws, store, map[])) && DistinctIds(chunks) && idfCache == map[] ==> Valid()
    {
      MigrateKeepsIf(ws, store, chunks);
      WriteAll(chunks);
      docs := DocsOf(chunks);
    }

    method WriteAll(chunks: seq<Chunk>)
      modifies this`store
      ensures store == AfterMigrate(ws, old(store), chunks)
    {
      var batch: Store, n, total, count := map[], 0, 0, 0;
      for i := 0 to |chunks|
        invariant n == CountNonEmpty(chunks[..i]) && total == SumLen(chunks[..i])
        invariant store + batch == old(store) + Entries(ws, chunks[..i])
      {
        EntriesStep(ws, chunks, i);
        if chunks[i].toks != [] {
          batch := AddEntries(chunks[i], batch, old(store), Entries(ws, chunks[..i]));
          n, total, count := n + 1, total + |chunks[i].toks|, count + 1;
          if count >= 256 {
            Flushed(store, batch);
            store, batch := store + batch, map[];
          }
        }
      }
      assert chunks[..|chunks|] == chunks;
      WithStats(ws, old(store), store, batch, chunks);
      batch := batch[StatsKey(ws) := Stats(n, total)];
      store := store + batch;
    }

    method AddEntries(c: Chunk, batch: Store, ghost before: Store, ghost written: Store) returns (next: Store)
      requires c.toks != [] && store + batch == before + written
      ensures store + next == before + (written + EntriesOf(ws, c))
    {
      var entries := EntriesFor(c);
      BatchGrows(before, store, batch, written, entries);
      next := batch + entries;
    }

    method EntriesFor(c: Chunk) returns (entries: Store)
      requires c.toks != []
      ensures entries == EntriesOf(ws, c)
    {
      var counts: map<Bytes, real> := map[];
      for i := 0 to |c.toks|
        invariant CountsOf(counts, c.toks[..i])
      {
        CountStep(counts, c.toks[..i], c.toks[i]);
        assert c.toks[..i + 1] == c.toks[..i] + [c.toks[i]];
        counts := AddTo(counts, c.toks[i].term, c.toks[i].weight);
      }
      assert c.toks[..|c.toks|] == c.toks;
      entries := PostingBatch(c.id, counts, |c.toks|, c.toks);
      entries := entries[IndexedKey(ws, c.id) := DocLen(Stored(|c.toks|))];
    }

    /** Whether the vault counts as indexed. */
    method HasPostings() returns (has: bool)
      ensures has <==> Initialized(ws, store)
    {
      has := StatsKey(ws) in store && store[StatsKey(ws)].Stats?;
    }
  }

  lemma MigrateKeepsIf(ws: Workspace, store: Store, chunks: seq<Chunk>)
    ensures Indexes(ws, store, map[]) && DistinctIds(chunks) ==>
                Indexes(ws, AfterMigrate(ws, store, chunks), DocsOf(chunks))
  {
    if Indexes(ws, store, map[]) && DistinctIds(chunks) {
      MigrateKeeps(ws, store, chunks);
    }
  }

  lemma EntriesStep(ws: Workspace, chunks: seq<Chunk>, i: nat)
    requires i < |chunks|
    ensures chunks[i].toks != [] ==> Entries(ws, chunks[..i + 1]) == Entries(ws, chunks[..i]) + EntriesOf(ws, chunks[i])
    ensures chunks[i].toks == [] ==> Entries(ws, chunks[..i + 1]) == Entries(ws, chunks[..i])
    ensures SumLen(chunks[..i + 1]) == SumLen(chunks[..i]) + |chunks[i].toks|
    ensures CountNonEmpty(chunks[..i + 1]) == CountNonEmpty(chunks[..i]) + if chunks[i].toks == [] then 0 else 1
  {
    assert chunks[..i + 1][..i] == chunks[..i];
  }

  lemma WithStats(ws: Workspace, before: Store, store: Store, batch: Store, chunks: seq<Chunk>)
    requires store + batch == before + Entries(ws, chunks)
    ensures store + batch[StatsKey(ws) := Stats(CountNonEmpty(chunks), SumLen(chunks))]
            == AfterMigrate(ws, before, chunks)
  {
    assert store + batch[StatsKey(ws) := Stats(CountNonEmpty(chunks), SumLen(chunks))]
           == (store + batch)[StatsKey(ws) := Stats(CountNonEmpty(chunks), SumLen(chunks))];
  }

  lemma Flushed(store: Store, batch: Store)
    ensures (store + batch) + map[] == store + batch
  {
  }

  lemma BatchGrows(before: Store, store: Store, batch: Store, written: Store, entries: Store)
    requires store + batch == before + written
    ensures store + (batch + entries) == before + (written + entries)
  {
    assert store + (batch + entries) == (store + batch) + entries;
    assert before + (written + entries) == (before + written) + entries;
  }

  function TermSet(terms: seq<Term>): set<Bytes> {
    set t | t in terms :: t
  }

  lemma TermSetStep(terms: seq<Term>, i: nat)
    requires i < |terms|
    ensures TermSet(terms[..i + 1]) == TermSet(terms[..i]) + {terms[i]}
  {
    assert terms[..i + 1] == terms[..i] + [terms[i]];
    forall t ensures t in TermSet(terms[..i + 1]) <==> t in TermSet(terms[..i]) + {terms[i]} {
      assert t in terms[..i + 1] <==> t in terms[..i] || t == terms[i];
    }
  }

  ghost predicate Deletable(docs: Docs, id: Bytes, terms: set<Bytes>) {
    id in docs ==> Terms(docs[id]) <= terms && |docs[id]| < 65536
  }

  lemma DeleteKeepsIf(ws: Workspace, store: Store, docs: Docs, id: Bytes, terms: set<Bytes>)
    requires Indexes(ws, store, docs) && forall t :: t in terms ==> TermShaped(t)
    ensures Deletable(docs, id, terms) ==> Indexes(ws, AfterDelete(ws, store, id, terms), docs - {id})
  {
    if Deletable(docs, id, terms) {
      DeleteKeeps(ws, store, docs, id, terms);
    }
  }

  /** The value one posting adds is what the reference adds for that chunk. A length of 0 is read when
      none is stored, and then the average stands for it; no indexed chunk below the limit has it. */
  ghost predicate PartReady(ws: Workspace, ln: real -> real, store: Store, docs: Docs, q: Term, id: Bytes, tf: real,
                            idf: real, avg: real) {
    && StoredLen(ws, store, id) > 0
    && Bm25(idf, tf, StoredLen(ws, store, id) as real, avg) == Part(ln, docs, q, id)
  }

  ghost predicate PartsReady(ws: Workspace, ln: real -> real, store: Store, docs: Docs, q: Term,
                             posts: map<Bytes, real>, idf: real, avg: real) {
    forall id :: id in posts ==> PartReady(ws, ln, store, docs, q, id, posts[id], idf, avg)
  }

  lemma PartsAreReady(ws: Workspace, ln: real -> real, store: Store, docs: Docs, q: Term, posts: map<Bytes, real>,
                      idf: real, avg: real)
    requires IndexedRight(ws, store, docs) && Small(docs)
    requires posts == Expanded(docs, q) && idf == Idf(ln, docs, q) && avg == AverageLen(docs)
    ensures PartsReady(ws, ln, store, docs, q, posts, idf, avg)
  {
    ExpandedDocs(docs, q);
    forall id | id in posts ensures PartReady(ws, ln, store, docs, q, id, posts[id], idf, avg) {
      LengthStored(ws, store, docs, id);
    }
  }

  lemma LengthStored(ws: Workspace, store: Store, docs: Docs, id: Bytes)
    requires IndexedRight(ws, store, docs) && Small(docs) && id in docs
    ensures StoredLen(ws, store, id) == |docs[id]| > 0
  {
    assert store[IndexedKey(ws, id)] == DocLen(|docs[id]|) && docs[id] != [];
  }

  lemma MoveOne(all: set<Bytes>, left: set<Bytes>, x: Bytes)
    requires left <= all && x in left
    ensures all - (left - {x}) == (all - left) + {x} && x !in all - left
  {
  }

  lemma ExactRangeFor(ws: Workspace, q: Term)
    ensures RangeFor(ws, TermPrefix(ws, q), TermPrefix(ws, q) + [1], q, false)
  {
    forall t: Term, id
      ensures InRange(PostingKey(ws, t, id), TermPrefix(ws, q), TermPrefix(ws, q) + [1]) <==> Matches(q, false, t)
    {
      ExactRange(ws, q, t, id);
    }
    forall k | InRange(k, TermPrefix(ws, q), TermPrefix(ws, q) + [1]) ensures IsPrefix([5] + ws, k) {
      RangesInsidePostings(ws, q, k);
    }
  }

  lemma PrefixRangeFor(ws: Workspace, q: Term)
    ensures var p := TermPrefix(ws, q); p[|p| - 1] < 255 && RangeFor(ws, p, Bump(p), q, true)
  {
    var p := TermPrefix(ws, q);
    RangesInsidePostings(ws, q, []);
    forall t: Term, id ensures InRange(PostingKey(ws, t, id), p, Bump(p)) <==> Matches(q, true, t) {
      PrefixRange(ws, q, t, id);
    }
    forall k | InRange(k, p, Bump(p)) ensures IsPrefix([5] + ws, k) {
      RangesInsidePostings(ws, q, k);
    }
  }

  lemma ExpandedDocs(docs: Docs, q: Bytes)
    ensures forall id :: id in Expanded(docs, q) ==> id in docs
  {
  }

  lemma KeyDecoded(ws: Workspace, store: Store, docs: Docs, key: Bytes) returns (t: Term, id: Bytes)
    requires PostingsRight(ws, store, docs) && key in store && IsPrefix([5] + ws, key)
    ensures key == PostingKey(ws, t, id) && id in docs && t in Terms(docs[id])
    ensures store[key] == Posting(WeightIn(docs[id], {t}), Stored(|docs[id]|))
  {
    t, id :| key == PostingKey(ws, t, id);
  }

  lemma NothingScanned(ws: Workspace, docs: Docs)
    ensures Scanned(ws, docs, {}, map[])
  {
  }

  ghost predicate CountsOf(counts: map<Bytes, real>, toks: seq<Token>) {
    && counts.Keys == Terms(toks)
    && (forall t :: t in counts ==> counts[t] == WeightIn(toks, {t}))
  }

  lemma CountStep(counts: map<Bytes, real>, toks: seq<Token>, tok: Token)
    requires CountsOf(counts, toks)
    ensures CountsOf(AddTo(counts, tok.term, tok.weight), toks + [tok])
  {
    var more := toks + [tok];
    assert more[..|more| - 1] == toks;
    assert forall x :: x in more <==> x in toks || x == tok;
    WeightPositive(toks, {tok.term});
  }

  lemma TermsOrNone(toks: seq<Token>)
    ensures Terms(toks) == {} <==> toks == []
  {
    assert toks == [] || toks[0].term in Terms(toks);
  }

  lemma BatchCommits(ws: Workspace, store: Store, id: Bytes, toks: seq<Token>, batch: Store)
    requires IndexedKey(ws, id) !in store && toks != []
    requires batch == Postings(ws, id, toks)[IndexedKey(ws, id) := DocLen(Stored(|toks|))]
                      [StatsKey(ws) := Stats(ReadStats(store, ws).0 + 1, ReadStats(store, ws).1 + |toks|)]
    ensures store + batch == AfterIndex(ws, store, id, toks)
  {
  }

  lemma IndexedIff(ws: Workspace, store: Store, docs: Docs, id: Bytes)
    requires Indexes(ws, store, docs)
    ensures IndexedKey(ws, id) in store <==> id in docs
  {
  }

}
