/** The stored form of the full-text index (internal/index/fts.go, internal/storage/keys/keys.go):
    key layout, key ranges, and what a store that indexes a given set of chunks looks like. A text is
    represented by the terms it is tokenized into. */
module FtsStore {
  import opened Bytes

  // ----- Terms and tokens -----

  /** UTF-8 letters and digits, so never a byte below '0' and never 0xFF. */
  predicate TermShaped(t: Bytes) {
    t != [] && forall i :: 0 <= i < |t| ==> 0x30 <= t[i] <= 0xF4
  }

  type Term = t: Bytes | TermShaped(t) witness [0x30]

  type Weight = w: real | w >= 1.0 witness 1.0

  function FieldWeight(field: string): Weight {
    match field
    case "title" => 3.0
    case "heading" => 2.0
    case "headings" => 2.0
    case _ => 1.0
  }

  datatype Token = Token(term: Term, weight: Weight)

  /** Total weight of the tokens whose term lies in `terms`. */
  function WeightIn(toks: seq<Token>, terms: set<Bytes>): (w: real)
    ensures w >= 0.0
  {
    if toks == [] then 0.0
    else
      var last := toks[|toks| - 1];
      WeightIn(toks[..|toks| - 1], terms) + (if last.term in terms then last.weight else 0.0)
  }

  function Terms(toks: seq<Token>): set<Bytes> {
    set tok | tok in toks :: tok.term
  }

  lemma {:induction false} WeightPositive(toks: seq<Token>, terms: set<Bytes>)
    ensures WeightIn(toks, terms) > 0.0 <==> exists t :: t in terms && t in Terms(toks)
    decreases |toks|
  {
    if toks != [] {
      var init, last := toks[..|toks| - 1], toks[|toks| - 1];
      assert toks == init + [last];
      assert last in toks && last.term in Terms(toks);
      assert forall t :: t in Terms(toks) <==> t in Terms(init) || t == last.term;
      WeightPositive(init, terms);
    }
  }

  lemma {:induction false} WeightAdds(toks: seq<Token>, terms: set<Bytes>, t: Bytes)
    requires t !in terms
    ensures WeightIn(toks, terms + {t}) == WeightIn(toks, terms) + WeightIn(toks, {t})
    decreases |toks|
  {
    if toks != [] {
      WeightAdds(toks[..|toks| - 1], terms, t);
    }
  }

  // ----- Keys -----

  type Workspace = ws: Bytes | |ws| == 8 witness [0, 0, 0, 0, 0, 0, 0, 0]

  function TermPrefix(ws: Workspace, t: Bytes): (k: Bytes) { [5] + ws + t }

  function PostingKey(ws: Workspace, t: Bytes, id: Bytes): Bytes { TermPrefix(ws, t) + [0] + id }

  function IndexedKey(ws: Workspace, id: Bytes): Bytes { [7] + ws + id }

  function StatsKey(ws: Workspace): Bytes { [8] + ws + [115, 116, 97, 116, 115] }

  lemma KeyParts(ws: Workspace, t: Bytes, id: Bytes)
    ensures var k := PostingKey(ws, t, id);
            && |k| == 10 + |t| + |id| && k[9..9 + |t|] == t && k[9 + |t|] == 0 && k[9 + |t| + 1..] == id
            && k[0] == 5
  {
    var k := PostingKey(ws, t, id);
    assert k[9..9 + |t|] == t;
    assert k[9 + |t| + 1..] == id;
  }

  lemma PostingKeyInjective(ws: Workspace, t: Term, id: Bytes, u: Term, jd: Bytes)
    requires PostingKey(ws, t, id) == PostingKey(ws, u, jd)
    ensures t == u && id == jd
  {
    var n := if |t| < |u| then |t| else |u|;
    FirstZero(ws, t, id, n);
    FirstZero(ws, u, jd, n);
    KeyParts(ws, t, id);
    KeyParts(ws, u, jd);
  }

  /** The first zero byte past the workspace ends the term. */
  lemma FirstZero(ws: Workspace, t: Term, id: Bytes, n: nat)
    requires n <= |t|
    ensures PostingKey(ws, t, id)[9 + n] == 0 <==> n == |t|
    ensures n < |t| ==> PostingKey(ws, t, id)[9 + n] == t[n]
  {
    KeyParts(ws, t, id);
    assert n < |t| ==> PostingKey(ws, t, id)[9..9 + |t|][n] == t[n];
  }

  lemma FamiliesApart(ws: Workspace, t: Bytes, id: Bytes, jd: Bytes)
    ensures PostingKey(ws, t, id) != IndexedKey(ws, jd) && PostingKey(ws, t, id) != StatsKey(ws)
    ensures IndexedKey(ws, jd) != StatsKey(ws)
    ensures IndexedKey(ws, id) == IndexedKey(ws, jd) <==> id == jd
  {
    assert PostingKey(ws, t, id)[0] == 5 && IndexedKey(ws, jd)[0] == 7 && StatsKey(ws)[0] == 8;
    assert IndexedKey(ws, id)[9..] == id && IndexedKey(ws, jd)[9..] == jd;
  }

  /** The chunk id after the first zero byte past the workspace; empty when there is none. */
  method ChunkIdFromKey(key: Bytes) returns (id: Bytes)
    ensures forall ws: Workspace, t: Term, jd :: key == PostingKey(ws, t, jd) ==> id == jd
  {
    var i := 9;
    while i < |key|
      invariant 9 <= i
      invariant forall j :: 9 <= j < i && j < |key| ==> key[j] != 0
    {
      if key[i] == 0 {
        id := key[i + 1..];
        forall ws: Workspace, t: Term, jd | key == PostingKey(ws, t, jd) ensures id == jd {
          KeyParts(ws, t, jd);
          FirstZero(ws, t, jd, i - 9);
        }
        return;
      }
      i := i + 1;
    }
    id := [];
    forall ws: Workspace, t: Term, jd | key == PostingKey(ws, t, jd) ensures false {
      KeyParts(ws, t, jd);
    }
  }

  // ----- Ranges -----

  predicate Matches(q: Bytes, prefix: bool, t: Bytes) {
    if prefix then IsPrefix(q, t) else t == q
  }

  lemma PrefixOfKey(ws: Workspace, q: Term, t: Term, id: Bytes)
    ensures IsPrefix(TermPrefix(ws, q), PostingKey(ws, t, id)) <==> IsPrefix(q, t)
  {
    var p, k := TermPrefix(ws, q), PostingKey(ws, t, id);
    KeyParts(ws, t, id);
    assert p[9..] == q && p[..9] == [5] + ws && k[..9] == [5] + ws;
    if IsPrefix(p, k) {
      var n := if |q| < |t| then |q| else |t|;
      FirstZero(ws, t, id, n);
      assert forall i :: 0 <= i < |q| ==> q[i] == p[9 + i] == k[..|p|][9 + i];
      assert |q| <= |t|;
      assert forall i :: 0 <= i < |q| ==> t[i] == k[9..9 + |t|][i];
      assert t[..|q|] == q;
    }
    assert IsPrefix(q, t) ==> t == q + t[|q|..] && k == p + (t[|q|..] + [0] + id);
  }

  /** The exact-term range holds precisely that term's postings. */
  lemma ExactRange(ws: Workspace, q: Term, t: Term, id: Bytes)
    ensures InRange(PostingKey(ws, t, id), TermPrefix(ws, q), TermPrefix(ws, q) + [1]) <==> t == q
  {
    var p, k := TermPrefix(ws, q), PostingKey(ws, t, id);
    TerminatorRange(k, p);
    PrefixOfKey(ws, q, t, id);
    KeyParts(ws, t, id);
    assert k == p ==> |t| < |q|;
    if |q| <= |t| {
      FirstZero(ws, t, id, |q|);
      assert |q| == |t| && IsPrefix(q, t) ==> q == t;
    }
  }

  /** The prefix range holds precisely the postings of the terms with that prefix. */
  lemma PrefixRange(ws: Workspace, q: Term, t: Term, id: Bytes)
    ensures var p := TermPrefix(ws, q);
            p[|p| - 1] < 255 && (InRange(PostingKey(ws, t, id), p, Bump(p)) <==> IsPrefix(q, t))
  {
    var p := TermPrefix(ws, q);
    assert p[|p| - 1] == q[|q| - 1];
    BumpRange(PostingKey(ws, t, id), p);
    PrefixOfKey(ws, q, t, id);
  }

  /** Nothing outside the workspace's postings lies in either range. */
  lemma RangesInsidePostings(ws: Workspace, q: Term, k: Bytes)
    ensures var p := TermPrefix(ws, q);
            p[|p| - 1] < 255 && (InRange(k, p, p + [1]) || InRange(k, p, Bump(p)) ==> IsPrefix([5] + ws, k))
  {
    var p := TermPrefix(ws, q);
    assert p[|p| - 1] == q[|q| - 1];
    BumpRange(k, p);
    TerminatorRange(k, p);
    assert p[..9] == [5] + ws;
    assert IsPrefix(p, k) ==> k[..9] == k[..|p|][..9];
  }

  // ----- Stores -----

  datatype Value = Posting(tf: real, docLen: nat) | DocLen(len: nat) | Stats(n: nat, total: nat) | Other

  type Store = map<Bytes, Value>

  /** Lengths are stored in two bytes. */
  function Stored(len: nat): nat { len % 65536 }

  function PostingKeys(ws: Workspace, id: Bytes, terms: set<Bytes>): set<Bytes> {
    set t | t in terms :: PostingKey(ws, t, id)
  }

  function TermIn(key: Bytes, id: Bytes): Bytes {
    if |key| >= 10 + |id| then key[9..|key| - |id| - 1] else []
  }

  /** The posting of every term of a chunk. */
  function Postings(ws: Workspace, id: Bytes, toks: seq<Token>): Store {
    map k | k in PostingKeys(ws, id, Terms(toks)) :: Posting(WeightIn(toks, {TermIn(k, id)}), Stored(|toks|))
  }

  /** What the stats key says; zero when it is absent. */
  function ReadStats(store: Store, ws: Workspace): (int, int) {
    if StatsKey(ws) in store && store[StatsKey(ws)].Stats?
      then (store[StatsKey(ws)].n, store[StatsKey(ws)].total) else (0, 0)
  }

  function AfterIndex(ws: Workspace, store: Store, id: Bytes, toks: seq<Token>): Store {
    if IndexedKey(ws, id) in store || toks == [] then store
    else
      var s := ReadStats(store, ws);
      (store + Postings(ws, id, toks))
      [IndexedKey(ws, id) := DocLen(Stored(|toks|))][StatsKey(ws) := Stats(s.0 + 1, s.1 + |toks|)]
  }

  function StoredLen(ws: Workspace, store: Store, id: Bytes): nat {
    if IndexedKey(ws, id) in store && store[IndexedKey(ws, id)].DocLen? then store[IndexedKey(ws, id)].len else 0
  }

  /** `terms` are the terms of the text given to the deletion. */
  function AfterDelete(ws: Workspace, store: Store, id: Bytes, terms: set<Bytes>): Store {
    if IndexedKey(ws, id) !in store then store
    else
      var s := ReadStats(store, ws);
      var len := StoredLen(ws, store, id);
      (store - PostingKeys(ws, id, terms) - {IndexedKey(ws, id)})
      [StatsKey(ws) := Stats(if s.0 > 0 then s.0 - 1 else s.0, if s.1 >= len then s.1 - len else s.1)]
  }

  // ----- A store that indexes exactly these chunks -----

  type Docs = map<Bytes, seq<Token>>

  ghost function TotalLen(docs: Docs): nat
    decreases |docs|
  {
    if docs == map[] then 0
    else
      var id :| id in docs;
      |docs[id]| + TotalLen(docs - {id})
  }

  lemma {:induction false} TotalWithout(docs: Docs, id: Bytes)
    requires id in docs
    ensures TotalLen(docs) == |docs[id]| + TotalLen(docs - {id})
    decreases |docs|
  {
    var jd: Bytes :| jd in docs && TotalLen(docs) == |docs[jd]| + TotalLen(docs - {jd});
    if jd != id {
      TotalWithout(docs - {jd}, id);
      TotalWithout(docs - {id}, jd);
      assert docs - {jd} - {id} == docs - {id} - {jd};
    }
  }

  ghost predicate PostingsRight(ws: Workspace, store: Store, docs: Docs) {
    && (forall k :: k in store && IsPrefix([5] + ws, k) ==> exists t: Term, id :: k == PostingKey(ws, t, id))
    && (forall t: Term, id :: PostingKey(ws, t, id) in store <==> id in docs && t in Terms(docs[id]))
    && (forall t: Term, id :: PostingKey(ws, t, id) in store && id in docs ==>
          store[PostingKey(ws, t, id)] == Posting(WeightIn(docs[id], {t}), Stored(|docs[id]|)))
  }

  ghost predicate IndexedRight(ws: Workspace, store: Store, docs: Docs) {
    && (forall id :: IndexedKey(ws, id) in store <==> id in docs)
    && (forall id :: id in docs ==>
          IndexedKey(ws, id) in store && store[IndexedKey(ws, id)] == DocLen(Stored(|docs[id]|)))
    && (forall id :: id in docs ==> docs[id] != [])
  }

  ghost predicate StatsRight(ws: Workspace, store: Store, docs: Docs) {
    StatsAre(ws, store, |docs|, TotalLen(docs))
  }

  ghost predicate StatsAre(ws: Workspace, store: Store, n: nat, total: nat) {
    && (StatsKey(ws) in store ==> store[StatsKey(ws)].Stats?)
    && ReadStats(store, ws) == (n, total)
  }

  ghost predicate Indexes(ws: Workspace, store: Store, docs: Docs) {
    PostingsRight(ws, store, docs) && IndexedRight(ws, store, docs) && StatsRight(ws, store, docs)
  }

  /** Keys of the index. */
  ghost predicate IndexKey(ws: Workspace, k: Bytes) {
    IsPrefix([5] + ws, k) || IsPrefix([7] + ws, k) || k == StatsKey(ws)
  }

  // ----- Index keeps it -----

  lemma PostingsAt(ws: Workspace, id: Bytes, toks: seq<Token>, t: Term, jd: Bytes)
    ensures PostingKey(ws, t, jd) in Postings(ws, id, toks) <==> jd == id && t in Terms(toks)
    ensures PostingKey(ws, t, jd) in Postings(ws, id, toks) ==>
              Postings(ws, id, toks)[PostingKey(ws, t, jd)] == Posting(WeightIn(toks, {t}), Stored(|toks|))
  {
    var k := PostingKey(ws, t, jd);
    KeyParts(ws, t, jd);
    if k in PostingKeys(ws, id, Terms(toks)) {
      var u :| u in Terms(toks) && k == PostingKey(ws, u, id);
      assert TermShaped(u);
      PostingKeyInjective(ws, t, jd, u, id);
    }
  }

  lemma PostingsAreKeys(ws: Workspace, id: Bytes, toks: seq<Token>, k: Bytes)
    requires k in Postings(ws, id, toks)
    ensures exists t: Term :: t in Terms(toks) && k == PostingKey(ws, t, id)
    ensures k[0] == 5
  {
    var u :| u in Terms(toks) && k == PostingKey(ws, u, id);
    assert TermShaped(u);
  }

  ghost predicate SameAt(a: Store, b: Store, k: Bytes) {
    (k in a <==> k in b) && (k in a ==> a[k] == b[k])
  }

  lemma IndexAtPosting(ws: Workspace, store: Store, id: Bytes, toks: seq<Token>, t: Term, jd: Bytes)
    requires IndexedKey(ws, id) !in store && toks != []
    ensures var s, k := AfterIndex(ws, store, id, toks), PostingKey(ws, t, jd);
            if jd == id && t in Terms(toks) then k in s && s[k] == Posting(WeightIn(toks, {t}), Stored(|toks|))
            else SameAt(s, store, k)
  {
    PostingsAt(ws, id, toks, t, jd);
    FamiliesApart(ws, t, jd, id);
  }

  lemma IndexAtIndexed(ws: Workspace, store: Store, id: Bytes, toks: seq<Token>, jd: Bytes)
    requires IndexedKey(ws, id) !in store && toks != []
    ensures IndexedAdded(ws, store, AfterIndex(ws, store, id, toks), id, |toks|, jd)
  {
    FamiliesApart(ws, [], id, jd);
    IndexedNotPosting(ws, id, Terms(toks), jd);
  }

  /** What indexing does to any other key: nothing. */
  lemma IndexFrame(ws: Workspace, store: Store, id: Bytes, toks: seq<Token>, k: Bytes)
    requires k != StatsKey(ws) && k != IndexedKey(ws, id)
    requires forall t: Term :: t in Terms(toks) ==> k != PostingKey(ws, t, id)
    ensures SameAt(AfterIndex(ws, store, id, toks), store, k)
  {
    if k in Postings(ws, id, toks) {
      PostingsAreKeys(ws, id, toks, k);
    }
  }

  lemma IndexPostings(ws: Workspace, store: Store, docs: Docs, id: Bytes, toks: seq<Token>)
    requires PostingsRight(ws, store, docs) && IndexedKey(ws, id) !in store && id !in docs && toks != []
    ensures PostingsRight(ws, AfterIndex(ws, store, id, toks), docs[id := toks])
  {
    var s, next := AfterIndex(ws, store, id, toks), docs[id := toks];
    forall t: Term, jd
      ensures PostingKey(ws, t, jd) in s <==> jd in next && t in Terms(next[jd])
      ensures PostingKey(ws, t, jd) in s && jd in next ==>
                s[PostingKey(ws, t, jd)] == Posting(WeightIn(next[jd], {t}), Stored(|next[jd]|))
    {
      IndexAtPosting(ws, store, id, toks, t, jd);
    }
    forall k | k in s && IsPrefix([5] + ws, k) ensures exists t: Term, jd :: k == PostingKey(ws, t, jd) {
      IndexPostingShaped(ws, store, docs, id, toks, k);
    }
  }

  lemma IndexPostingShaped(ws: Workspace, store: Store, docs: Docs, id: Bytes, toks: seq<Token>, k: Bytes)
    requires PostingsRight(ws, store, docs) && k in AfterIndex(ws, store, id, toks) && IsPrefix([5] + ws, k)
    ensures exists t: Term, jd :: k == PostingKey(ws, t, jd)
  {
    assert k[0] == ([5] + ws)[0];
    assert IndexedKey(ws, id)[0] == 7 && StatsKey(ws)[0] == 8;
    if exists t: Term :: t in Terms(toks) && k == PostingKey(ws, t, id) {
    } else {
      IndexFrame(ws, store, id, toks, k);
    }
  }

  lemma IndexIndexed(ws: Workspace, store: Store, docs: Docs, id: Bytes, toks: seq<Token>)
    requires IndexedRight(ws, store, docs) && id !in docs && toks != []
    ensures IndexedRight(ws, AfterIndex(ws, store, id, toks), docs[id := toks])
  {
    forall jd ensures IndexedAdded(ws, store, AfterIndex(ws, store, id, toks), id, |toks|, jd) {
      IndexAtIndexed(ws, store, id, toks, jd);
    }
    IndexedGrows(ws, store, AfterIndex(ws, store, id, toks), docs, id, toks);
  }

  ghost predicate IndexedAdded(ws: Workspace, store: Store, s: Store, id: Bytes, len: nat, jd: Bytes) {
    var k := IndexedKey(ws, jd);
    if jd == id then k in s && s[k] == DocLen(Stored(len)) else SameAt(s, store, k)
  }

  lemma IndexedGrows(ws: Workspace, store: Store, s: Store, docs: Docs, id: Bytes, toks: seq<Token>)
    requires IndexedRight(ws, store, docs) && toks != []
    requires forall jd :: IndexedAdded(ws, store, s, id, |toks|, jd)
    ensures IndexedRight(ws, s, docs[id := toks])
  {
    forall jd
      ensures IndexedKey(ws, jd) in s <==> jd in docs[id := toks]
      ensures jd in docs[id := toks] ==>
                  IndexedKey(ws, jd) in s && s[IndexedKey(ws, jd)] == DocLen(Stored(|docs[id := toks][jd]|))
    {
      assert IndexedAdded(ws, store, s, id, |toks|, jd);
    }
  }

  lemma IndexStats(ws: Workspace, store: Store, docs: Docs, id: Bytes, toks: seq<Token>)
    requires StatsRight(ws, store, docs) && IndexedKey(ws, id) !in store && id !in docs && toks != []
    ensures StatsRight(ws, AfterIndex(ws, store, id, toks), docs[id := toks])
  {
    IndexAtStats(ws, store, id, toks, |docs|, TotalLen(docs));
    StatsGrow(ws, AfterIndex(ws, store, id, toks), docs, id, toks);
  }

  lemma StatsGrow(ws: Workspace, s: Store, docs: Docs, id: Bytes, toks: seq<Token>)
    requires StatsAre(ws, s, |docs| + 1, TotalLen(docs) + |toks|) && id !in docs
    ensures StatsRight(ws, s, docs[id := toks])
  {
    DocsAdded(docs, id, toks);
  }

  lemma DocsAdded(docs: Docs, id: Bytes, toks: seq<Token>)
    requires id !in docs
    ensures |docs[id := toks]| == |docs| + 1 && TotalLen(docs[id := toks]) == TotalLen(docs) + |toks|
  {
    TotalWithout(docs[id := toks], id);
    assert docs[id := toks] - {id} == docs;
    assert docs[id := toks].Keys == docs.Keys + {id};
  }

  lemma DocsRemoved(docs: Docs, id: Bytes)
    requires id in docs
    ensures |docs - {id}| == |docs| - 1 && TotalLen(docs) == TotalLen(docs - {id}) + |docs[id]|
  {
    TotalWithout(docs, id);
    assert (docs - {id}).Keys == docs.Keys - {id};
  }

  lemma IndexAtStats(ws: Workspace, store: Store, id: Bytes, toks: seq<Token>, n: nat, total: nat)
    requires StatsAre(ws, store, n, total) && IndexedKey(ws, id) !in store && toks != []
    ensures StatsAre(ws, AfterIndex(ws, store, id, toks), n + 1, total + |toks|)
  {
    assert AfterIndex(ws, store, id, toks)[StatsKey(ws)] == Stats(n + 1, total + |toks|);
  }

  /** Indexing a chunk makes the store index one chunk more, or the same when it is known or empty. */
  lemma IndexKeeps(ws: Workspace, store: Store, docs: Docs, id: Bytes, toks: seq<Token>)
    requires Indexes(ws, store, docs)
    ensures Indexes(ws, AfterIndex(ws, store, id, toks), if id in docs || toks == [] then docs else docs[id := toks])
  {
    if id !in docs && toks != [] {
      IndexPostings(ws, store, docs, id, toks);
      IndexIndexed(ws, store, docs, id, toks);
      IndexStats(ws, store, docs, id, toks);
    }
  }

  // ----- Delete -----

  lemma DeletePostings(ws: Workspace, store: Store, docs: Docs, id: Bytes, terms: set<Bytes>)
    requires PostingsRight(ws, store, docs) && IndexedKey(ws, id) in store && id in docs
    requires Terms(docs[id]) <= terms && forall t :: t in terms ==> TermShaped(t)
    ensures PostingsRight(ws, AfterDelete(ws, store, id, terms), docs - {id})
  {
    var s, next := AfterDelete(ws, store, id, terms), docs - {id};
    forall k | k in s && IsPrefix([5] + ws, k) ensures exists t: Term, jd :: k == PostingKey(ws, t, jd) {
      assert k[0] == ([5] + ws)[0] && StatsKey(ws)[0] == 8;
      assert k in store;
    }
    forall t: Term, jd
      ensures PostingKey(ws, t, jd) in s <==> jd in next && t in Terms(next[jd])
      ensures PostingKey(ws, t, jd) in s && jd in next ==>
                s[PostingKey(ws, t, jd)] == Posting(WeightIn(next[jd], {t}), Stored(|next[jd]|))
    {
      DeleteAtPosting(ws, store, id, terms, t, jd);
    }
  }

  lemma DeleteAtPosting(ws: Workspace, store: Store, id: Bytes, terms: set<Bytes>, t: Term, jd: Bytes)
    requires IndexedKey(ws, id) in store && forall u :: u in terms ==> TermShaped(u)
    ensures var s, k := AfterDelete(ws, store, id, terms), PostingKey(ws, t, jd);
            if jd == id && t in terms then k !in s else SameAt(s, store, k)
  {
    DeletedKey(ws, id, terms, t, jd);
    FamiliesApart(ws, t, jd, id);
  }

  lemma DeleteAtIndexed(ws: Workspace, store: Store, id: Bytes, terms: set<Bytes>, jd: Bytes)
    requires IndexedKey(ws, id) in store
    ensures var s, k := AfterDelete(ws, store, id, terms), IndexedKey(ws, jd);
            if jd == id then k !in s else SameAt(s, store, k)
  {
    FamiliesApart(ws, [], id, jd);
    IndexedNotPosting(ws, id, terms, jd);
  }

  lemma DeletedKey(ws: Workspace, id: Bytes, terms: set<Bytes>, t: Term, jd: Bytes)
    requires forall u :: u in terms ==> TermShaped(u)
    ensures PostingKey(ws, t, jd) in PostingKeys(ws, id, terms) <==> jd == id && t in terms
  {
    if PostingKey(ws, t, jd) in PostingKeys(ws, id, terms) {
      var u :| u in terms && PostingKey(ws, t, jd) == PostingKey(ws, u, id);
      PostingKeyInjective(ws, t, jd, u, id);
    }
  }

  lemma DeleteIndexed(ws: Workspace, store: Store, docs: Docs, id: Bytes, terms: set<Bytes>)
    requires IndexedRight(ws, store, docs) && id in docs
    ensures IndexedRight(ws, AfterDelete(ws, store, id, terms), docs - {id})
  {
    var s, next := AfterDelete(ws, store, id, terms), docs - {id};
    forall jd
      ensures IndexedKey(ws, jd) in s <==> jd in next
      ensures jd in next ==> IndexedKey(ws, jd) in s && s[IndexedKey(ws, jd)] == DocLen(Stored(|next[jd]|))
    {
      DeleteAtIndexed(ws, store, id, terms, jd);
    }
  }

  lemma DeleteStats(ws: Workspace, store: Store, docs: Docs, id: Bytes, terms: set<Bytes>)
    requires StatsRight(ws, store, docs) && id in docs && |docs[id]| < 65536
    requires IndexedKey(ws, id) in store && store[IndexedKey(ws, id)] == DocLen(Stored(|docs[id]|))
    ensures StatsRight(ws, AfterDelete(ws, store, id, terms), docs - {id})
  {
    DocsRemoved(docs, id);
    DeleteAtStats(ws, store, id, terms, |docs|, TotalLen(docs), |docs[id]|);
  }

  lemma DeleteAtStats(ws: Workspace, store: Store, id: Bytes, terms: set<Bytes>, n: nat, total: nat, len: nat)
    requires StatsAre(ws, store, n, total) && n > 0 && total >= len
    requires IndexedKey(ws, id) in store && store[IndexedKey(ws, id)] == DocLen(Stored(len))
    ensures StatsAre(ws, AfterDelete(ws, store, id, terms), n - 1, total - Stored(len))
  {
  }

  lemma IndexedNotPosting(ws: Workspace, id: Bytes, terms: set<Bytes>, jd: Bytes)
    ensures IndexedKey(ws, jd) !in PostingKeys(ws, id, terms) && StatsKey(ws) !in PostingKeys(ws, id, terms)
  {
    forall t | t in terms ensures PostingKey(ws, t, id) != IndexedKey(ws, jd) && PostingKey(ws, t, id) != StatsKey(ws) {
      FamiliesApart(ws, t, id, jd);
    }
  }

  /** Deleting with a text that has every indexed term removes exactly that chunk. */
  lemma DeleteKeeps(ws: Workspace, store: Store, docs: Docs, id: Bytes, terms: set<Bytes>)
    requires Indexes(ws, store, docs)
    requires id in docs ==> Terms(docs[id]) <= terms && |docs[id]| < 65536
    requires forall t :: t in terms ==> TermShaped(t)
    ensures Indexes(ws, AfterDelete(ws, store, id, terms), docs - {id})
  {
    if id in docs {
      DeletePostings(ws, store, docs, id, terms);
      DeleteIndexed(ws, store, docs, id, terms);
      DeleteStats(ws, store, docs, id, terms);
    } else {
      assert docs - {id} == docs;
    }
  }

  ghost predicate Restored(ws: Workspace, s: Store, store: Store) {
    (forall k :: k != StatsKey(ws) ==> SameAt(s, store, k)) && ReadStats(s, ws) == ReadStats(store, ws)
  }

  /** Deleting what was just indexed undoes it iff the given text has every indexed term and the chunk
      has fewer than 65536 tokens: its length is stored in two bytes but added in full. */
  lemma DeleteUndoesIndexIff(ws: Workspace, store: Store, docs: Docs, id: Bytes, toks: seq<Token>, terms: set<Bytes>)
    requires Indexes(ws, store, docs) && id !in docs && toks != []
    requires forall t :: t in terms ==> TermShaped(t)
    ensures Restored(ws, AfterDelete(ws, AfterIndex(ws, store, id, toks), id, terms), store)
            <==> Terms(toks) <= terms && |toks| < 65536
  {
    StatsRestoredIff(ws, store, docs, id, toks, terms);
    var s := AfterDelete(ws, AfterIndex(ws, store, id, toks), id, terms);
    if Terms(toks) <= terms {
      forall k | k != StatsKey(ws) ensures SameAt(s, store, k) {
        UndoneAt(ws, store, docs, id, toks, terms, k);
      }
    } else {
      var t :| t in Terms(toks) && t !in terms;
      assert TermShaped(t);
      PostingLeft(ws, store, docs, id, toks, terms, t);
      FamiliesApart(ws, t, id, id);
    }
  }

  lemma StatsRestoredIff(ws: Workspace, store: Store, docs: Docs, id: Bytes, toks: seq<Token>, terms: set<Bytes>)
    requires StatsRight(ws, store, docs) && IndexedKey(ws, id) !in store && toks != []
    ensures ReadStats(AfterDelete(ws, AfterIndex(ws, store, id, toks), id, terms), ws) == ReadStats(store, ws) <==>
                |toks| < 65536
  {
    IndexAtIndexed(ws, store, id, toks, id);
    IndexAtStats(ws, store, id, toks, |docs|, TotalLen(docs));
    BackIff(ws, store, AfterIndex(ws, store, id, toks), id, terms, |docs|, TotalLen(docs), |toks|);
  }

  lemma BackIff(ws: Workspace, store: Store, mid: Store, id: Bytes, terms: set<Bytes>, n: nat, total: nat, len: nat)
    requires StatsAre(ws, store, n, total) && StatsAre(ws, mid, n + 1, total + len)
    requires IndexedKey(ws, id) in mid && mid[IndexedKey(ws, id)] == DocLen(Stored(len))
    ensures ReadStats(AfterDelete(ws, mid, id, terms), ws) == ReadStats(store, ws) <==> len < 65536
  {
    DeleteAtStats(ws, mid, id, terms, n + 1, total + len, len);
  }

  lemma PostingLeft(ws: Workspace, store: Store, docs: Docs, id: Bytes, toks: seq<Token>, terms: set<Bytes>, t: Term)
    requires PostingsRight(ws, store, docs) && IndexedKey(ws, id) !in store && id !in docs && toks != []
    requires t in Terms(toks) && t !in terms && forall u :: u in terms ==> TermShaped(u)
    ensures !SameAt(AfterDelete(ws, AfterIndex(ws, store, id, toks), id, terms), store, PostingKey(ws, t, id))
  {
    IndexAtIndexed(ws, store, id, toks, id);
    IndexAtPosting(ws, store, id, toks, t, id);
    DeleteAtPosting(ws, AfterIndex(ws, store, id, toks), id, terms, t, id);
  }

  lemma UndoneAt(ws: Workspace, store: Store, docs: Docs, id: Bytes, toks: seq<Token>, terms: set<Bytes>, k: Bytes)
    requires PostingsRight(ws, store, docs) && IndexedKey(ws, id) !in store && id !in docs && toks != []
    requires Terms(toks) <= terms && (forall t :: t in terms ==> TermShaped(t)) && k != StatsKey(ws)
    ensures SameAt(AfterDelete(ws, AfterIndex(ws, store, id, toks), id, terms), store, k)
  {
    var mid := AfterIndex(ws, store, id, toks);
    IndexAtIndexed(ws, store, id, toks, id);
    if k in PostingKeys(ws, id, terms) {
      var t :| t in terms && k == PostingKey(ws, t, id);
      assert TermShaped(t);
      DeleteAtPosting(ws, mid, id, terms, t, id);
    } else if k == IndexedKey(ws, id) {
      DeleteAtIndexed(ws, mid, id, terms, id);
    } else {
      IndexFrame(ws, store, id, toks, k);
    }
  }

  // ----- Any order gives the same store -----

  /** The index of a set of chunks is unique: only the other keys, and whether zero statistics are
      written or absent, are left open. */
  lemma StoresEqual(ws: Workspace, a: Store, b: Store, docs: Docs, k: Bytes)
    requires PostingsRight(ws, a, docs) && IndexedRight(ws, a, docs)
    requires PostingsRight(ws, b, docs) && IndexedRight(ws, b, docs)
    requires IndexKey(ws, k) && k != StatsKey(ws)
    ensures SameAt(a, b, k)
  {
    if IsPrefix([5] + ws, k) {
      if k in a {
        PostingSame(ws, a, b, docs, k);
      } else if k in b {
        PostingSame(ws, b, a, docs, k);
      }
    } else {
      assert k == IndexedKey(ws, k[9..]);
      IndexedSame(ws, a, b, docs, k[9..]);
    }
  }

  lemma IndexedSame(ws: Workspace, a: Store, b: Store, docs: Docs, id: Bytes)
    requires IndexedRight(ws, a, docs) && IndexedRight(ws, b, docs)
    ensures SameAt(a, b, IndexedKey(ws, id))
  {
  }

  lemma PostingSame(ws: Workspace, a: Store, b: Store, docs: Docs, k: Bytes)
    requires PostingsRight(ws, a, docs) && PostingsRight(ws, b, docs)
    requires IsPrefix([5] + ws, k) && k in a
    ensures SameAt(a, b, k)
  {
    var t: Term, id :| k == PostingKey(ws, t, id);
    assert PostingKey(ws, t, id) in a && PostingKey(ws, t, id) in b;
  }

  datatype Chunk = Chunk(id: Bytes, toks: seq<Token>)

  function IndexAll(ws: Workspace, store: Store, chunks: seq<Chunk>): Store
    decreases chunks
  {
    if chunks == [] then store
    else
      var n := |chunks| - 1;
      AfterIndex(ws, IndexAll(ws, store, chunks[..n]), chunks[n].id, chunks[n].toks)
  }

  function DocsOf(chunks: seq<Chunk>): Docs
    decreases chunks
  {
    if chunks == [] then map[]
    else
      var n := |chunks| - 1;
      var rest := DocsOf(chunks[..n]);
      if chunks[n].toks == [] then rest else rest[chunks[n].id := chunks[n].toks]
  }

  ghost predicate DistinctIds(chunks: seq<Chunk>) {
    forall i, j :: 0 <= i < j < |chunks| ==> chunks[i].id != chunks[j].id
  }

  lemma {:induction false} DocsOfAt(chunks: seq<Chunk>, id: Bytes)
    requires DistinctIds(chunks)
    ensures id in DocsOf(chunks) <==> exists c :: c in chunks && c.id == id && c.toks != []
    ensures forall c :: c in chunks && c.id == id && c.toks != [] ==>
                id in DocsOf(chunks) && DocsOf(chunks)[id] == c.toks
    decreases |chunks|
  {
    if chunks != [] {
      var init, last := chunks[..|chunks| - 1], chunks[|chunks| - 1];
      assert chunks == init + [last];
      DocsOfAt(init, id);
      assert forall c :: c in chunks <==> c in init || c == last;
      assert last in chunks;
      assert forall c :: c in init ==> c.id != last.id;
    }
  }

  lemma DocsOfPermuted(a: seq<Chunk>, b: seq<Chunk>)
    requires DistinctIds(a) && DistinctIds(b) && forall c :: c in a <==> c in b
    ensures DocsOf(a) == DocsOf(b)
  {
    forall id ensures id in DocsOf(a) <==> id in DocsOf(b)
      ensures id in DocsOf(a) && id in DocsOf(b) ==> DocsOf(a)[id] == DocsOf(b)[id]
    {
      DocsOfAt(a, id);
      DocsOfAt(b, id);
    }
  }

  lemma {:induction false} IndexAllKeeps(ws: Workspace, store: Store, chunks: seq<Chunk>)
    requires Indexes(ws, store, map[]) && DistinctIds(chunks)
    ensures Indexes(ws, IndexAll(ws, store, chunks), DocsOf(chunks))
    decreases |chunks|
  {
    if chunks != [] {
      var init, last := chunks[..|chunks| - 1], chunks[|chunks| - 1];
      IndexAllKeeps(ws, store, init);
      IndexKeeps(ws, IndexAll(ws, store, init), DocsOf(init), last.id, last.toks);
      DocsOfAt(init, last.id);
      assert forall c :: c in init ==> c in chunks && c.id != last.id;
    }
  }

  // ----- Migration -----

  /** All keys but the statistics of one chunk. */
  function EntriesOf(ws: Workspace, c: Chunk): Store {
    if c.toks == [] then map[] else Postings(ws, c.id, c.toks)[IndexedKey(ws, c.id) := DocLen(Stored(|c.toks|))]
  }

  function Entries(ws: Workspace, chunks: seq<Chunk>): Store
    decreases chunks
  {
    if chunks == [] then map[] else Entries(ws, chunks[..|chunks| - 1]) + EntriesOf(ws, chunks[|chunks| - 1])
  }

  function CountNonEmpty(chunks: seq<Chunk>): nat
    decreases chunks
  {
    if chunks == [] then 0
    else CountNonEmpty(chunks[..|chunks| - 1]) + (if chunks[|chunks| - 1].toks == [] then 0 else 1)
  }

  function SumLen(chunks: seq<Chunk>): nat
    decreases chunks
  {
    if chunks == [] then 0 else SumLen(chunks[..|chunks| - 1]) + |chunks[|chunks| - 1].toks|
  }

  function AfterMigrate(ws: Workspace, store: Store, chunks: seq<Chunk>): Store {
    (store + Entries(ws, chunks))[StatsKey(ws) := Stats(CountNonEmpty(chunks), SumLen(chunks))]
  }

  lemma {:induction false} EntriesKeys(ws: Workspace, chunks: seq<Chunk>, k: Bytes)
    ensures k in Entries(ws, chunks) <==> exists c :: c in chunks && k in EntriesOf(ws, c)
    decreases |chunks|
  {
    if chunks != [] {
      var init, last := chunks[..|chunks| - 1], chunks[|chunks| - 1];
      assert chunks == init + [last];
      EntriesKeys(ws, init, k);
      assert forall c :: c in chunks <==> c in init || c == last;
    }
  }

  /** The statistics key is written last: running the migration again over whatever a crash left of
      it gives the same store as a run that was never interrupted. */
  lemma MigrationRestarts(ws: Workspace, store: Store, chunks: seq<Chunk>, written: seq<Chunk>)
    requires forall c :: c in written ==> c in chunks
    ensures AfterMigrate(ws, store + Entries(ws, written), chunks) == AfterMigrate(ws, store, chunks)
  {
    forall k | k in Entries(ws, written) ensures k in Entries(ws, chunks) {
      EntriesKeys(ws, written, k);
      EntriesKeys(ws, chunks, k);
    }
    assert store + Entries(ws, written) + Entries(ws, chunks) == store + Entries(ws, chunks);
  }

  /** The statistics have been written. */
  predicate Initialized(ws: Workspace, store: Store) {
    StatsKey(ws) in store && store[StatsKey(ws)].Stats?
  }

  /** A vault counts as indexed iff a migration ran to its end: whatever part of the chunks one wrote
      before a crash, it still counts as not indexed, and as indexed once the last write is made, or once
      a chunk with terms is indexed. */
  lemma InitializedIff(ws: Workspace, store: Store, chunks: seq<Chunk>, written: seq<Chunk>, id: Bytes,
                       toks: seq<Token>)
    ensures Initialized(ws, store + Entries(ws, written)) <==> Initialized(ws, store)
    ensures Initialized(ws, AfterMigrate(ws, store, chunks))
    ensures IndexedKey(ws, id) !in store && toks != [] ==> Initialized(ws, AfterIndex(ws, store, id, toks))
    ensures IndexedKey(ws, id) in store || toks == [] ==>
              (Initialized(ws, AfterIndex(ws, store, id, toks)) <==> Initialized(ws, store))
  {
    EntriesKeys(ws, written, StatsKey(ws));
    forall c | c in written ensures StatsKey(ws) !in EntriesOf(ws, c) {
      FamiliesApart(ws, [], c.id, c.id);
      IndexedNotPosting(ws, c.id, Terms(c.toks), c.id);
    }
  }

  lemma EntryStep(ws: Workspace, store: Store, entries: Store, indexed: Store, c: Chunk, k: Bytes)
    requires SameAt(store + entries, indexed, k) && k != StatsKey(ws) && IndexedKey(ws, c.id) !in indexed
    ensures SameAt(store + (entries + EntriesOf(ws, c)), AfterIndex(ws, indexed, c.id, c.toks), k)
  {
  }

  /** On an empty vault, migrating builds what indexing every chunk in turn builds. */
  lemma {:induction false} MigrateAt(ws: Workspace, store: Store, chunks: seq<Chunk>, k: Bytes)
    requires Indexes(ws, store, map[]) && DistinctIds(chunks) && k != StatsKey(ws)
    ensures SameAt(store + Entries(ws, chunks), IndexAll(ws, store, chunks), k)
    decreases |chunks|
  {
    if chunks != [] {
      var init, last := chunks[..|chunks| - 1], chunks[|chunks| - 1];
      MigrateAt(ws, store, init, k);
      NotYetIndexed(ws, store, chunks);
      EntryStep(ws, store, Entries(ws, init), IndexAll(ws, store, init), last, k);
    }
  }

  lemma NotYetIndexed(ws: Workspace, store: Store, chunks: seq<Chunk>)
    requires Indexes(ws, store, map[]) && DistinctIds(chunks) && chunks != []
    ensures var init, last := chunks[..|chunks| - 1], chunks[|chunks| - 1];
            last.id !in DocsOf(init) && IndexedKey(ws, last.id) !in IndexAll(ws, store, init)
  {
    var init, last := chunks[..|chunks| - 1], chunks[|chunks| - 1];
    IndexAllKeeps(ws, store, init);
    DocsOfAt(init, last.id);
    assert forall c :: c in init ==> c.id != last.id;
  }

  lemma {:induction false} MigrateCounts(chunks: seq<Chunk>)
    requires DistinctIds(chunks)
    ensures CountNonEmpty(chunks) == |DocsOf(chunks)| && SumLen(chunks) == TotalLen(DocsOf(chunks))
    decreases |chunks|
  {
    if chunks != [] {
      var init, last := chunks[..|chunks| - 1], chunks[|chunks| - 1];
      MigrateCounts(init);
      DocsOfAt(init, last.id);
      assert forall c :: c in init ==> c.id != last.id;
      if last.toks != [] {
        DocsAdded(DocsOf(init), last.id, last.toks);
      }
    }
  }

  /** Migration equals indexing the chunks in any order, on every key but the statistics, and there
      it equals what those read as. */
  lemma MigrateIsIndexing(ws: Workspace, store: Store, chunks: seq<Chunk>, inOrder: seq<Chunk>, k: Bytes)
    requires Indexes(ws, store, map[]) && DistinctIds(chunks) && DistinctIds(inOrder)
    requires forall c :: c in chunks <==> c in inOrder
    ensures k != StatsKey(ws) ==> SameAt(AfterMigrate(ws, store, chunks), IndexAll(ws, store, inOrder), k)
    ensures ReadStats(AfterMigrate(ws, store, chunks), ws) == ReadStats(IndexAll(ws, store, inOrder), ws)
  {
    MigrateStats(ws, store, chunks, inOrder);
    if k != StatsKey(ws) {
      MigrateAt(ws, store, chunks, k);
      AnyOrder(ws, store, chunks, inOrder, k);
    }
  }

  lemma MigrateStats(ws: Workspace, store: Store, chunks: seq<Chunk>, inOrder: seq<Chunk>)
    requires Indexes(ws, store, map[]) && DistinctIds(chunks) && DistinctIds(inOrder)
    requires forall c :: c in chunks <==> c in inOrder
    ensures ReadStats(AfterMigrate(ws, store, chunks), ws) == ReadStats(IndexAll(ws, store, inOrder), ws)
  {
    MigrateCounts(chunks);
    IndexAllKeeps(ws, store, inOrder);
    DocsOfPermuted(chunks, inOrder);
    SameStats(ws, store, IndexAll(ws, store, inOrder), chunks, CountNonEmpty(chunks), SumLen(chunks));
  }

  lemma SameStats(ws: Workspace, store: Store, indexed: Store, chunks: seq<Chunk>, n: nat, total: nat)
    requires StatsAre(ws, indexed, n, total) && CountNonEmpty(chunks) == n && SumLen(chunks) == total
    ensures ReadStats(AfterMigrate(ws, store, chunks), ws) == ReadStats(indexed, ws)
  {
  }

  /** The order in which chunks are indexed leaves no trace. */
  lemma AnyOrder(ws: Workspace, store: Store, a: seq<Chunk>, b: seq<Chunk>, k: Bytes)
    requires Indexes(ws, store, map[]) && DistinctIds(a) && DistinctIds(b) && k != StatsKey(ws)
    requires forall c :: c in a <==> c in b
    ensures SameAt(IndexAll(ws, store, a), IndexAll(ws, store, b), k)
  {
    if IndexKey(ws, k) {
      IndexAllKeeps(ws, store, a);
      IndexAllKeeps(ws, store, b);
      DocsOfPermuted(a, b);
      StoresEqual(ws, IndexAll(ws, store, a), IndexAll(ws, store, b), DocsOf(a), k);
    } else {
      IndexAllFrame(ws, store, a, k);
      IndexAllFrame(ws, store, b, k);
    }
  }

  /** Indexing touches no key outside the index. */
  lemma {:induction false} IndexAllFrame(ws: Workspace, store: Store, chunks: seq<Chunk>, k: Bytes)
    requires !IndexKey(ws, k)
    ensures SameAt(IndexAll(ws, store, chunks), store, k)
    decreases |chunks|
  {
    if chunks != [] {
      var init, last := chunks[..|chunks| - 1], chunks[|chunks| - 1];
      IndexAllFrame(ws, store, init, k);
      OutsideIndex(ws, last.id, k);
      IndexFrame(ws, IndexAll(ws, store, init), last.id, last.toks, k);
    }
  }

  lemma OutsideIndex(ws: Workspace, id: Bytes, k: Bytes)
    requires !IndexKey(ws, k)
    ensures k != IndexedKey(ws, id) && forall t: Term :: k != PostingKey(ws, t, id)
  {
    assert IndexedKey(ws, id)[..9] == [7] + ws;
    forall t: Term ensures k != PostingKey(ws, t, id) {
      assert PostingKey(ws, t, id)[..9] == [5] + ws;
    }
  }

  /** The migrated store indexes exactly the non-empty chunks. */
  lemma MigrateKeeps(ws: Workspace, store: Store, chunks: seq<Chunk>)
    requires Indexes(ws, store, map[]) && DistinctIds(chunks)
    ensures Indexes(ws, AfterMigrate(ws, store, chunks), DocsOf(chunks))
  {
    var a, b := IndexAll(ws, store, chunks), AfterMigrate(ws, store, chunks);
    IndexAllKeeps(ws, store, chunks);
    forall k | k != StatsKey(ws) ensures SameAt(b, a, k) {
      MigrateAt(ws, store, chunks, k);
    }
    MigrateCounts(chunks);
    SameIndex(ws, a, b, DocsOf(chunks));
  }

  lemma SameIndex(ws: Workspace, a: Store, b: Store, docs: Docs)
    requires Indexes(ws, a, docs)
    requires forall k :: k != StatsKey(ws) ==> SameAt(b, a, k)
    requires StatsAre(ws, b, |docs|, TotalLen(docs))
    ensures Indexes(ws, b, docs)
  {
    forall t: Term, id ensures SameAt(b, a, PostingKey(ws, t, id)) {
      FamiliesApart(ws, t, id, id);
    }
    forall id ensures SameAt(b, a, IndexedKey(ws, id)) {
      FamiliesApart(ws, [], id, id);
    }
    forall k | k in b && IsPrefix([5] + ws, k) ensures SameAt(b, a, k) {
      assert k[0] == ([5] + ws)[0] && StatsKey(ws)[0] == 8;
    }
  }

  // ----- Whole runs -----

  datatype Op = Add(id: Bytes, toks: seq<Token>) | Drop(id: Bytes, terms: seq<Term>)

  ghost function AfterOp(ws: Workspace, store: Store, op: Op): Store {
    match op
    case Add(id, toks) => AfterIndex(ws, store, id, toks)
    case Drop(id, terms) => AfterDelete(ws, store, id, set t | t in terms :: t)
  }

  /** A chunk keeps its first text until it is dropped. */
  function DocsOp(docs: Docs, op: Op): Docs {
    match op
    case Add(id, toks) => if id in docs || toks == [] then docs else docs[id := toks]
    case Drop(id, _) => docs - {id}
  }

  /** A deletion is given a text with all the indexed terms, of a chunk below the length limit. */
  ghost predicate DropsOwnText(docs: Docs, op: Op) {
    op.Drop? && op.id in docs ==> Terms(docs[op.id]) <= (set t | t in op.terms :: t) && |docs[op.id]| < 65536
  }

  lemma OpKeeps(ws: Workspace, store: Store, docs: Docs, op: Op)
    requires Indexes(ws, store, docs) && DropsOwnText(docs, op)
    ensures Indexes(ws, AfterOp(ws, store, op), DocsOp(docs, op))
  {
    match op
    case Add(id, toks) => IndexKeeps(ws, store, docs, id, toks);
    case Drop(id, terms) => DeleteKeeps(ws, store, docs, id, set t | t in terms :: t);
  }

  ghost function AfterRun(ws: Workspace, store: Store, ops: seq<Op>): Store
    decreases ops
  {
    if ops == [] then store else AfterRun(ws, AfterOp(ws, store, ops[0]), ops[1..])
  }

  function DocsAfter(docs: Docs, ops: seq<Op>): Docs
    decreases ops
  {
    if ops == [] then docs else DocsAfter(DocsOp(docs, ops[0]), ops[1..])
  }

  ghost predicate AllDropOwnText(docs: Docs, ops: seq<Op>)
    decreases ops
  {
    ops == [] || (DropsOwnText(docs, ops[0]) && AllDropOwnText(DocsOp(docs, ops[0]), ops[1..]))
  }

  /** After any run the statistics are the count and length sum of the indexed set, and a chunk has
      postings, one per term, iff it is in that set. */
  lemma {:induction false} RunIndexes(ws: Workspace, store: Store, docs: Docs, ops: seq<Op>)
    requires Indexes(ws, store, docs) && AllDropOwnText(docs, ops)
    ensures Indexes(ws, AfterRun(ws, store, ops), DocsAfter(docs, ops))
    decreases ops
  {
    if ops != [] {
      OpKeeps(ws, store, docs, ops[0]);
      RunIndexes(ws, AfterOp(ws, store, ops[0]), DocsOp(docs, ops[0]), ops[1..]);
    }
  }
}
