/** The re-ingest delta (internal/pipeline/delta.go) and the embeddings it lets a re-ingest keep
    (internal/pipeline/reingest.go). */
module Delta {

  type ChunkId = string

  datatype Chunk = Chunk(id: ChunkId, contentHash: string)

  datatype Change = Added | Removed | Unchanged

  /** `newId` is empty for Removed and `prevId` for Added. */
  datatype ChunkDelta = ChunkDelta(change: Change, newId: ChunkId, prevId: ChunkId)

  /** Chunks with no content hash match nothing but themselves. */
  function Key(c: Chunk): string {
    if c.contentHash == "" then ['\0'] + c.id else c.contentHash
  }

  /** Two chunks have one key iff they have the same hash, or none and the same id. */
  lemma KeysAgreeIff(a: Chunk, b: Chunk)
    requires forall c :: c in [a, b] && c.contentHash != "" ==> c.contentHash[0] != '\0'
    ensures Key(a) == Key(b) <==> a.contentHash == b.contentHash && (a.contentHash != "" || a.id == b.id)
  {
    assert a in [a, b] && b in [a, b];
    assert Key(a) == Key(b) && a.contentHash == "" ==> Key(a)[1..] == a.id && Key(b)[1..] == b.id;
  }

  function Keys(cs: seq<Chunk>): set<string> {
    set c | c in cs :: Key(c)
  }

  /** The ids of those of the first `n` chunks that have key `h`, in order. */
  function FirstBucket(cs: seq<Chunk>, n: nat, h: string): (ids: seq<ChunkId>)
    requires n <= |cs|
    ensures |ids| <= n
  {
    if n == 0 then []
    else FirstBucket(cs, n - 1, h) + (if Key(cs[n - 1]) == h then [cs[n - 1].id] else [])
  }

  function Bucket(cs: seq<Chunk>, h: string): seq<ChunkId> {
    FirstBucket(cs, |cs|, h)
  }

  /** How many earlier chunks share chunk `i`'s key. */
  function Rank(cs: seq<Chunk>, i: nat): nat
    requires i < |cs|
  {
    |FirstBucket(cs, i, Key(cs[i]))|
  }

  // ----- What the delta says of each chunk, read off the two lists -----

  /** An old chunk is unchanged iff the new list has a chunk with its key and rank. */
  function OldDelta(prev: seq<Chunk>, next: seq<Chunk>, i: nat): ChunkDelta
    requires i < |prev|
  {
    var nb := Bucket(next, Key(prev[i]));
    var r := Rank(prev, i);
    if r < |nb| then ChunkDelta(Unchanged, nb[r], prev[i].id) else ChunkDelta(Removed, "", prev[i].id)
  }

  /** The deltas of the first `n` old chunks whose key is in `ks`. */
  function OldPart(prev: seq<Chunk>, next: seq<Chunk>, n: nat, ks: set<string>): multiset<ChunkDelta>
    requires n <= |prev|
  {
    if n == 0 then multiset{}
    else OldPart(prev, next, n - 1, ks)
         + (if Key(prev[n - 1]) in ks then multiset{OldDelta(prev, next, n - 1)} else multiset{})
  }

  /** The first `n` new chunks whose key is in `ks`, each reported as added. */
  function NewPart(next: seq<Chunk>, n: nat, ks: set<string>): multiset<ChunkDelta>
    requires n <= |next|
  {
    if n == 0 then multiset{}
    else NewPart(next, n - 1, ks)
         + (if Key(next[n - 1]) in ks then multiset{ChunkDelta(Added, next[n - 1].id, "")} else multiset{})
  }

  /** What diffChunks reports. New chunks are reported as added when their key is not an old one. */
  function Reported(prev: seq<Chunk>, next: seq<Chunk>): multiset<ChunkDelta> {
    OldPart(prev, next, |prev|, Keys(prev)) + NewPart(next, |next|, Keys(next) - Keys(prev))
  }

  lemma {:induction false} OldPartSplit(prev: seq<Chunk>, next: seq<Chunk>, n: nat, ks: set<string>, h: string)
    requires n <= |prev| && h !in ks
    ensures OldPart(prev, next, n, ks + {h}) == OldPart(prev, next, n, ks) + OldPart(prev, next, n, {h})
  {
    if n > 0 {
      OldPartSplit(prev, next, n - 1, ks, h);
    }
  }

  lemma {:induction false} NewPartSplit(next: seq<Chunk>, n: nat, ks: set<string>, h: string)
    requires n <= |next| && h !in ks
    ensures NewPart(next, n, ks + {h}) == NewPart(next, n, ks) + NewPart(next, n, {h})
  {
    if n > 0 {
      NewPartSplit(next, n - 1, ks, h);
    }
  }

  /** The deltas one old bucket yields, by position in the bucket. */
  function BucketDelta(ob: seq<ChunkId>, nb: seq<ChunkId>, r: nat): ChunkDelta
    requires r < |ob|
  {
    if r < |nb| then ChunkDelta(Unchanged, nb[r], ob[r]) else ChunkDelta(Removed, "", ob[r])
  }

  function BucketDeltas(ob: seq<ChunkId>, nb: seq<ChunkId>): seq<ChunkDelta> {
    seq(|ob|, r requires 0 <= r < |ob| => BucketDelta(ob, nb, r))
  }

  lemma BucketDeltasSnoc(ob: seq<ChunkId>, id: ChunkId, nb: seq<ChunkId>)
    ensures BucketDeltas(ob + [id], nb) == BucketDeltas(ob, nb) + [BucketDelta(ob + [id], nb, |ob|)]
  {
  }

  lemma AddedDeltasSnoc(nb: seq<ChunkId>, id: ChunkId)
    ensures AddedDeltas(nb + [id]) == AddedDeltas(nb) + [ChunkDelta(Added, id, "")]
  {
  }

  lemma Snoc<T>(a: seq<T>, x: T)
    ensures multiset(a + [x]) == multiset(a) + multiset{x}
  {
  }

  lemma {:induction false} OldPartIsBucket(prev: seq<Chunk>, next: seq<Chunk>, n: nat, h: string)
    requires n <= |prev|
    ensures OldPart(prev, next, n, {h}) == multiset(BucketDeltas(FirstBucket(prev, n, h), Bucket(next, h)))
  {
    if n > 0 {
      OldPartIsBucket(prev, next, n - 1, h);
      OldPartStep(prev, next, n - 1, h, FirstBucket(prev, n - 1, h), Bucket(next, h));
    }
  }

  lemma OldPartStep(prev: seq<Chunk>, next: seq<Chunk>, i: nat, h: string, ob: seq<ChunkId>, nb: seq<ChunkId>)
    requires i < |prev| && ob == FirstBucket(prev, i, h) && nb == Bucket(next, h)
    ensures multiset(BucketDeltas(FirstBucket(prev, i + 1, h), nb))
            == multiset(BucketDeltas(ob, nb))
               + (if Key(prev[i]) == h then multiset{OldDelta(prev, next, i)} else multiset{})
  {
    if Key(prev[i]) == h {
      BucketDeltasSnoc(ob, prev[i].id, nb);
      Snoc(BucketDeltas(ob, nb), OldDelta(prev, next, i));
    } else {
      assert FirstBucket(prev, i + 1, h) == ob;
    }
  }

  lemma {:induction false} NewPartIsBucket(next: seq<Chunk>, n: nat, h: string)
    requires n <= |next|
    ensures NewPart(next, n, {h}) == multiset(AddedDeltas(FirstBucket(next, n, h)))
  {
    if n > 0 {
      NewPartIsBucket(next, n - 1, h);
      NewPartStep(next, n - 1, h, FirstBucket(next, n - 1, h));
    }
  }

  lemma NewPartStep(next: seq<Chunk>, j: nat, h: string, nb: seq<ChunkId>)
    requires j < |next| && nb == FirstBucket(next, j, h)
    ensures multiset(AddedDeltas(FirstBucket(next, j + 1, h)))
            == multiset(AddedDeltas(nb))
               + (if Key(next[j]) == h then multiset{ChunkDelta(Added, next[j].id, "")} else multiset{})
  {
    if Key(next[j]) == h {
      AddedDeltasSnoc(nb, next[j].id);
      Snoc(AddedDeltas(nb), ChunkDelta(Added, next[j].id, ""));
    } else {
      assert FirstBucket(next, j + 1, h) == nb;
    }
  }

  function AddedDeltas(nb: seq<ChunkId>): seq<ChunkDelta> {
    seq(|nb|, r requires 0 <= r < |nb| => ChunkDelta(Added, nb[r], ""))
  }

  // ----- The source's loops -----

  lemma {:induction false} KeyedBucket(cs: seq<Chunk>, n: nat, h: string)
    requires n <= |cs|
    ensures FirstBucket(cs, n, h) != [] <==> h in Keys(cs[..n])
  {
    if n > 0 {
      KeyedBucket(cs, n - 1, h);
      KeysSnoc(cs, n - 1);
    }
  }

  lemma KeysSnoc(cs: seq<Chunk>, i: nat)
    requires i < |cs|
    ensures Keys(cs[..i + 1]) == Keys(cs[..i]) + {Key(cs[i])}
  {
    assert cs[..i + 1] == cs[..i] + [cs[i]];
  }

  method BucketByHash(cs: seq<Chunk>) returns (buckets: map<string, seq<ChunkId>>)
    ensures buckets.Keys == Keys(cs)
    ensures forall h :: h in buckets ==> buckets[h] == Bucket(cs, h)
  {
    buckets := map[];
    for i := 0 to |cs|
      invariant buckets.Keys == Keys(cs[..i])
      invariant forall h :: h in buckets ==> buckets[h] == FirstBucket(cs, i, h)
    {
      var h := Key(cs[i]);
      KeyedBucket(cs, i, h);
      KeysSnoc(cs, i);
      buckets := buckets[h := (if h in buckets then buckets[h] else []) + [cs[i].id]];
    }
    assert cs[..|cs|] == cs;
  }

  /** The remap an old list and a new list determine, for the old chunks with a key in `ks`. */
  ghost predicate RemapFor(remap: map<ChunkId, ChunkId>, prev: seq<Chunk>, next: seq<Chunk>, ks: set<string>) {
    && (forall i :: 0 <= i < |prev| && Key(prev[i]) in ks && Rank(prev, i) < |Bucket(next, Key(prev[i]))|
          ==> prev[i].id in remap && remap[prev[i].id] == Bucket(next, Key(prev[i]))[Rank(prev, i)])
    && (forall id :: id in remap ==>
          exists i ::
            0 <= i < |prev| && prev[i].id == id && Key(prev[i]) in ks && Rank(prev, i) < |Bucket(next, Key(prev[i]))|)
  }

  ghost predicate DistinctIds(cs: seq<Chunk>) {
    forall i, j :: 0 <= i < j < |cs| ==> cs[i].id != cs[j].id
  }

  /** Where position `r` of a bucket comes from. */
  lemma {:induction false} BucketSource(cs: seq<Chunk>, n: nat, h: string, r: nat) returns (i: nat)
    requires n <= |cs| && r < |FirstBucket(cs, n, h)|
    ensures i < n && Key(cs[i]) == h && cs[i].id == FirstBucket(cs, n, h)[r] && Rank(cs, i) == r
  {
    if r < |FirstBucket(cs, n - 1, h)| {
      i := BucketSource(cs, n - 1, h, r);
    } else {
      i := n - 1;
    }
  }

  lemma {:induction false} RankBound(cs: seq<Chunk>, i: nat, n: nat)
    requires i < n <= |cs|
    ensures Rank(cs, i) < |FirstBucket(cs, n, Key(cs[i]))| && FirstBucket(cs, n, Key(cs[i]))[Rank(cs, i)] == cs[i].id
  {
    if i < n - 1 {
      RankBound(cs, i, n - 1);
    }
  }

  /** Bucket positions and list positions correspond: each bucket entry is one chunk, and distinct
      ids stay distinct. */
  lemma BucketDistinct(cs: seq<Chunk>, h: string)
    requires DistinctIds(cs)
    ensures var b := Bucket(cs, h); forall i, j :: 0 <= i < j < |b| ==> b[i] != b[j]
  {
    var b := Bucket(cs, h);
    forall i, j | 0 <= i < j < |b| ensures b[i] != b[j] {
      var x := BucketSource(cs, |cs|, h, i);
      var y := BucketSource(cs, |cs|, h, j);
      assert Rank(cs, x) != Rank(cs, y);
    }
  }

  /** What DiffBucket's map holds. */
  ghost predicate Pairs(pairs: map<ChunkId, ChunkId>, ob: seq<ChunkId>, nb: seq<ChunkId>) {
    && (forall id :: id in pairs ==> exists r :: 0 <= r < |ob| && r < |nb| && ob[r] == id)
    && (forall r :: 0 <= r < |ob| && r < |nb| ==> ob[r] in pairs && pairs[ob[r]] == nb[r])
  }

  lemma PairedKey(pairs: map<ChunkId, ChunkId>, prev: seq<Chunk>, nb: seq<ChunkId>, h: string, i: nat)
    requires DistinctIds(prev) && Pairs(pairs, Bucket(prev, h), nb)
    requires i < |prev| && prev[i].id in pairs
    ensures Key(prev[i]) == h && Rank(prev, i) < |nb|
  {
    var ob := Bucket(prev, h);
    var r :| 0 <= r < |ob| && r < |nb| && ob[r] == prev[i].id;
    var x := BucketSource(prev, |prev|, h, r);
  }

  lemma PairedSource(pairs: map<ChunkId, ChunkId>, prev: seq<Chunk>, nb: seq<ChunkId>, h: string, id: ChunkId)
    returns (i: nat)
    requires Pairs(pairs, Bucket(prev, h), nb) && id in pairs
    ensures i < |prev| && prev[i].id == id && Key(prev[i]) == h && Rank(prev, i) < |nb|
  {
    var ob := Bucket(prev, h);
    var r :| 0 <= r < |ob| && r < |nb| && ob[r] == id;
    i := BucketSource(prev, |prev|, h, r);
  }

  lemma RemapGrows(remap: map<ChunkId, ChunkId>, pairs: map<ChunkId, ChunkId>,
                   prev: seq<Chunk>, next: seq<Chunk>, done: set<string>, h: string)
    requires DistinctIds(prev) && RemapFor(remap, prev, next, done) && h !in done
    requires Pairs(pairs, Bucket(prev, h), Bucket(next, h))
    ensures RemapFor(remap + pairs, prev, next, done + {h})
  {
    forall i | 0 <= i < |prev| && Key(prev[i]) in done + {h} && Rank(prev, i) < |Bucket(next, Key(prev[i]))|
      ensures prev[i].id in remap + pairs
      ensures (remap + pairs)[prev[i].id] == Bucket(next, Key(prev[i]))[Rank(prev, i)]
    {
      RankBound(prev, i, |prev|);
      if prev[i].id in pairs {
        PairedKey(pairs, prev, Bucket(next, h), h, i);
      }
    }
    forall id | id in remap + pairs
      ensures exists i ::
                0 <= i < |prev| && prev[i].id == id && Key(prev[i]) in done + {h}
                && Rank(prev, i) < |Bucket(next, Key(prev[i]))|
    {
      if id in pairs {
        var i := PairedSource(pairs, prev, Bucket(next, h), h, id);
      }
    }
  }

  lemma {:induction false} NoKeys(prev: seq<Chunk>, next: seq<Chunk>, n: nat)
    ensures n <= |prev| ==> OldPart(prev, next, n, {}) == multiset{}
    ensures n <= |next| ==> NewPart(next, n, {}) == multiset{}
  {
    if n > 0 {
      NoKeys(prev, next, n - 1);
    }
  }

  /** diffChunks. The maps are walked in any order; `deltas` comes out as the same multiset. */
  method DiffChunks(prev: seq<Chunk>, next: seq<Chunk>)
    returns (deltas: seq<ChunkDelta>, remap: map<ChunkId, ChunkId>)
    requires DistinctIds(prev)
    ensures multiset(deltas) == Reported(prev, next)
    ensures RemapFor(remap, prev, next, Keys(prev))
  {
    var oldBuckets := BucketByHash(prev);
    var newBuckets := BucketByHash(next);
    EmptyBuckets(next);
    deltas, remap, newBuckets := PairOldBuckets(prev, next, oldBuckets, newBuckets);
    var added := AddRest(next, newBuckets);
    deltas := deltas + added;
  }

  lemma EmptyBuckets(cs: seq<Chunk>)
    ensures forall h :: h !in Keys(cs) ==> Bucket(cs, h) == []
  {
    forall h | h !in Keys(cs) ensures Bucket(cs, h) == [] {
      KeyedBucket(cs, |cs|, h);
      assert cs[..|cs|] == cs;
    }
  }

  /** Walking one more bucket adds that bucket's deltas. */
  lemma BucketAdds(prev: seq<Chunk>, next: seq<Chunk>, done: set<string>, h: string)
    requires h !in done
    ensures OldPart(prev, next, |prev|, done + {h})
            == OldPart(prev, next, |prev|, done) + multiset(BucketDeltas(Bucket(prev, h), Bucket(next, h)))
  {
    OldPartSplit(prev, next, |prev|, done, h);
    OldPartIsBucket(prev, next, |prev|, h);
  }

  /** What has been reported and remapped once the buckets in `done` are paired. */
  ghost predicate Paired(prev: seq<Chunk>, next: seq<Chunk>, done: set<string>,
                         deltas: seq<ChunkDelta>, remap: map<ChunkId, ChunkId>) {
    multiset(deltas) == OldPart(prev, next, |prev|, done) && RemapFor(remap, prev, next, done)
  }

  method PairOldBuckets(ghost prev: seq<Chunk>, ghost next: seq<Chunk>,
                        oldBuckets: map<string, seq<ChunkId>>, all: map<string, seq<ChunkId>>)
    returns (deltas: seq<ChunkDelta>, remap: map<ChunkId, ChunkId>, newBuckets: map<string, seq<ChunkId>>)
    requires DistinctIds(prev)
    requires forall h :: h in oldBuckets ==> oldBuckets[h] == Bucket(prev, h)
    requires forall h :: h in all ==> all[h] == Bucket(next, h)
    requires forall h :: h !in all ==> Bucket(next, h) == []
    ensures Paired(prev, next, oldBuckets.Keys, deltas, remap)
    ensures newBuckets == all - oldBuckets.Keys
  {
    deltas, remap, newBuckets := [], map[], all;
    var todo := oldBuckets.Keys;
    ghost var done := {};
    NoKeys(prev, next, |prev|);
    while todo != {}
      invariant done + todo == oldBuckets.Keys && done !! todo
      invariant newBuckets == all - done
      invariant Paired(prev, next, done, deltas, remap)
      decreases todo
    {
      var h :| h in todo;
      TakeKey(oldBuckets.Keys, done, todo, h, all, newBuckets);
      deltas, remap := PairOne(prev, next, done, h, oldBuckets[h],
                               if h in newBuckets then newBuckets[h] else [], deltas, remap);
      newBuckets := newBuckets - {h};
      todo, done := todo - {h}, done + {h};
    }
    assert done == oldBuckets.Keys;
  }

  lemma TakeKey(keys: set<string>, done: set<string>, todo: set<string>, h: string,
                all: map<string, seq<ChunkId>>, left: map<string, seq<ChunkId>>)
    requires done + todo == keys && done !! todo && h in todo && left == all - done
    ensures (done + {h}) + (todo - {h}) == keys && (done + {h}) !! (todo - {h}) && h !in done
    ensures left - {h} == all - (done + {h})
    ensures (h in left <==> h in all) && (h in left ==> left[h] == all[h])
  {
  }

  method PairOne(ghost prev: seq<Chunk>, ghost next: seq<Chunk>, ghost done: set<string>, ghost h: string,
                 ob: seq<ChunkId>, nb: seq<ChunkId>, deltas0: seq<ChunkDelta>, remap0: map<ChunkId, ChunkId>)
    returns (deltas: seq<ChunkDelta>, remap: map<ChunkId, ChunkId>)
    requires DistinctIds(prev) && h !in done && ob == Bucket(prev, h) && nb == Bucket(next, h)
    requires Paired(prev, next, done, deltas0, remap0)
    ensures Paired(prev, next, done + {h}, deltas, remap)
  {
    BucketDistinct(prev, h);
    var more, pairs := DiffBucket(ob, nb);
    BucketAdds(prev, next, done, h);
    RemapGrows(remap0, pairs, prev, next, done, h);
    deltas, remap := deltas0 + more, remap0 + pairs;
  }

  method AddRest(ghost next: seq<Chunk>, buckets: map<string, seq<ChunkId>>) returns (deltas: seq<ChunkDelta>)
    requires forall h :: h in buckets ==> buckets[h] == Bucket(next, h)
    ensures multiset(deltas) == NewPart(next, |next|, buckets.Keys)
  {
    deltas := [];
    var todo := buckets.Keys;
    ghost var done := {};
    NoKeys([], next, |next|);
    while todo != {}
      invariant done + todo == buckets.Keys && done !! todo
      invariant multiset(deltas) == NewPart(next, |next|, done)
      decreases todo
    {
      var h :| h in todo;
      NewPartSplit(next, |next|, done, h);
      NewPartIsBucket(next, |next|, h);
      deltas := deltas + AddedDeltas(buckets[h]);
      todo, done := todo - {h}, done + {h};
    }
    assert done == buckets.Keys;
  }

  /** One bucket: pair what can be paired, the surplus of the old side is removed. */
  method DiffBucket(ob: seq<ChunkId>, nb: seq<ChunkId>)
    returns (deltas: seq<ChunkDelta>, remap: map<ChunkId, ChunkId>)
    requires forall i, j :: 0 <= i < j < |ob| ==> ob[i] != ob[j]
    ensures deltas == BucketDeltas(ob, nb)
    ensures Pairs(remap, ob, nb)
  {
    deltas, remap := [], map[];
    var u := if |nb| < |ob| then |nb| else |ob|;
    for i := 0 to u
      invariant deltas == BucketDeltas(ob, nb)[..i]
      invariant Pairs(remap, ob[..i], nb)
    {
      deltas := deltas + [ChunkDelta(Unchanged, nb[i], ob[i])];
      remap := remap[ob[i] := nb[i]];
    }
    for i := u to |ob|
      invariant deltas == BucketDeltas(ob, nb)[..i]
    {
      deltas := deltas + [ChunkDelta(Removed, "", ob[i])];
    }
  }

  // ----- What the delta means -----

  lemma {:induction false} InOldPart(prev: seq<Chunk>, next: seq<Chunk>, n: nat, ks: set<string>, d: ChunkDelta)
    requires n <= |prev|
    ensures d in OldPart(prev, next, n, ks) <==>
              exists i :: 0 <= i < n && Key(prev[i]) in ks && d == OldDelta(prev, next, i)
  {
    if n > 0 {
      InOldPart(prev, next, n - 1, ks, d);
    }
  }

  lemma {:induction false} InNewPart(next: seq<Chunk>, n: nat, ks: set<string>, d: ChunkDelta)
    requires n <= |next|
    ensures d in NewPart(next, n, ks) <==>
              exists j :: 0 <= j < n && Key(next[j]) in ks && d == ChunkDelta(Added, next[j].id, "")
  {
    if n > 0 {
      InNewPart(next, n - 1, ks, d);
    }
  }

  lemma InReported(prev: seq<Chunk>, next: seq<Chunk>, d: ChunkDelta)
    ensures d in Reported(prev, next) <==>
              || (exists i :: 0 <= i < |prev| && d == OldDelta(prev, next, i))
              || (exists j :: 0 <= j < |next| && Key(next[j]) !in Keys(prev) && d == ChunkDelta(Added, next[j].id, ""))
  {
    InOldPart(prev, next, |prev|, Keys(prev), d);
    InNewPart(next, |next|, Keys(next) - Keys(prev), d);
    assert forall i :: 0 <= i < |prev| ==> prev[i] in prev;
    assert forall j :: 0 <= j < |next| ==> next[j] in next;
  }

  function UnchangedAmong(prev: seq<Chunk>, next: seq<Chunk>, n: nat, h: string): nat
    requires n <= |prev|
  {
    if n == 0 then 0
    else UnchangedAmong(prev, next, n - 1, h)
         + (if Key(prev[n - 1]) == h && OldDelta(prev, next, n - 1).change.Unchanged? then 1 else 0)
  }

  /** Per key, exactly min(old, new) chunks are unchanged. */
  lemma {:induction false} UnchangedCount(prev: seq<Chunk>, next: seq<Chunk>, n: nat, h: string)
    requires n <= |prev|
    ensures UnchangedAmong(prev, next, n, h)
            == if |FirstBucket(prev, n, h)| < |Bucket(next, h)| then |FirstBucket(prev, n, h)| else |Bucket(next, h)|
  {
    if n > 0 {
      UnchangedCount(prev, next, n - 1, h);
    }
  }

  lemma OneMore<T>(m: multiset<T>, x: T, y: T)
    ensures (m + multiset{x})[y] == m[y] + (if x == y then 1 else 0)
  {
  }

  lemma {:induction false} OldOnceAmong(prev: seq<Chunk>, next: seq<Chunk>, n: nat, ks: set<string>, i: nat)
    requires DistinctIds(prev) && i < |prev| && n <= |prev|
    requires forall x :: 0 <= x < |prev| ==> Key(prev[x]) in ks
    ensures OldPart(prev, next, n, ks)[OldDelta(prev, next, i)] == if i < n then 1 else 0
  {
    if n > 0 {
      OldOnceAmong(prev, next, n - 1, ks, i);
      OldDeltaInjective(prev, next, n - 1, i);
      OneMore(OldPart(prev, next, n - 1, ks), OldDelta(prev, next, n - 1), OldDelta(prev, next, i));
    }
  }

  lemma OldDeltaInjective(prev: seq<Chunk>, next: seq<Chunk>, a: nat, b: nat)
    requires DistinctIds(prev) && a < |prev| && b < |prev|
    ensures OldDelta(prev, next, a).prevId == prev[a].id
    ensures OldDelta(prev, next, a) == OldDelta(prev, next, b) <==> a == b
  {
    assert OldDelta(prev, next, a).prevId == prev[a].id && OldDelta(prev, next, b).prevId == prev[b].id;
  }

  /** Every old chunk is reported exactly once, as unchanged or removed. */
  lemma EveryOldOnce(prev: seq<Chunk>, next: seq<Chunk>, i: nat)
    requires DistinctIds(prev) && i < |prev|
    ensures OldDelta(prev, next, i).change != Added && OldDelta(prev, next, i).prevId == prev[i].id
    ensures Reported(prev, next)[OldDelta(prev, next, i)] == 1
    ensures forall d :: d in Reported(prev, next) && d.change != Added && d.prevId == prev[i].id ==>
                d == OldDelta(prev, next, i)
  {
    var mine := OldDelta(prev, next, i);
    forall x | 0 <= x < |prev| ensures Key(prev[x]) in Keys(prev) {
      assert prev[x] in prev;
    }
    OldOnceAmong(prev, next, |prev|, Keys(prev), i);
    InNewPart(next, |next|, Keys(next) - Keys(prev), mine);
    assert mine !in NewPart(next, |next|, Keys(next) - Keys(prev));
    forall d | d in Reported(prev, next) && d.change != Added && d.prevId == prev[i].id ensures d == mine {
      OldDeltaOf(prev, next, d, i);
    }
  }

  lemma OldDeltaOf(prev: seq<Chunk>, next: seq<Chunk>, d: ChunkDelta, i: nat)
    requires DistinctIds(prev) && i < |prev|
    requires d in Reported(prev, next) && d.change != Added && d.prevId == prev[i].id
    ensures d == OldDelta(prev, next, i)
  {
    InReported(prev, next, d);
    var k :| 0 <= k < |prev| && d == OldDelta(prev, next, k);
    OldDeltaInjective(prev, next, k, i);
  }

  /** New chunk `j` shows up in the delta. */
  ghost predicate Mentioned(prev: seq<Chunk>, next: seq<Chunk>, j: nat)
    requires j < |next|
  {
    exists d :: d in Reported(prev, next) && d.change != Removed && d.newId == next[j].id
  }

  lemma UnchangedTarget(prev: seq<Chunk>, next: seq<Chunk>, i: nat) returns (j: nat)
    requires i < |prev| && OldDelta(prev, next, i).change.Unchanged?
    ensures j < |next| && next[j].id == OldDelta(prev, next, i).newId
    ensures Key(next[j]) == Key(prev[i]) && Rank(next, j) == Rank(prev, i)
  {
    j := BucketSource(next, |next|, Key(prev[i]), Rank(prev, i));
  }

  /** Exactly which new chunks are reported: those paired with an old chunk of the same key and
      rank, and those whose key is new. A surplus copy of a text that was already there is not. */
  lemma NewMentionedIff(prev: seq<Chunk>, next: seq<Chunk>, j: nat)
    requires DistinctIds(next) && j < |next|
    ensures Mentioned(prev, next, j) <==>
              Rank(next, j) < |Bucket(prev, Key(next[j]))| || Key(next[j]) !in Keys(prev)
  {
    var h := Key(next[j]);
    if Mentioned(prev, next, j) {
      var d :| d in Reported(prev, next) && d.change != Removed && d.newId == next[j].id;
      InReported(prev, next, d);
      if i: int :| 0 <= i < |prev| && d == OldDelta(prev, next, i) {
        var j' := UnchangedTarget(prev, next, i);
        assert j' == j;
        RankBound(prev, i, |prev|);
      }
    }
    if Rank(next, j) < |Bucket(prev, h)| {
      var i := BucketSource(prev, |prev|, h, Rank(next, j));
      RankBound(next, j, |next|);
      InReported(prev, next, OldDelta(prev, next, i));
      assert OldDelta(prev, next, i).newId == next[j].id;
      assert Mentioned(prev, next, j);
    } else if h !in Keys(prev) {
      InReported(prev, next, ChunkDelta(Added, next[j].id, ""));
      assert Mentioned(prev, next, j);
    }
  }

  /** The delta that reports new chunk `j`, if any does: its pair, or its addition. */
  function NewDelta(prev: seq<Chunk>, next: seq<Chunk>, j: nat): ChunkDelta
    requires j < |next|
  {
    var ob, r := Bucket(prev, Key(next[j])), Rank(next, j);
    if r < |ob| then ChunkDelta(Unchanged, next[j].id, ob[r]) else ChunkDelta(Added, next[j].id, "")
  }

  lemma {:induction false} NewOnceAmong(next: seq<Chunk>, n: nat, ks: set<string>, j: nat)
    requires DistinctIds(next) && j < |next| && n <= |next| && Key(next[j]) in ks
    ensures NewPart(next, n, ks)[ChunkDelta(Added, next[j].id, "")] == if j < n then 1 else 0
  {
    if n > 0 {
      NewOnceAmong(next, n - 1, ks, j);
      OneMore(NewPart(next, n - 1, ks), ChunkDelta(Added, next[n - 1].id, ""), ChunkDelta(Added, next[j].id, ""));
    }
  }

  /** A new chunk that is reported at all is reported by one delta only, and by that one once. */
  lemma NewOnce(prev: seq<Chunk>, next: seq<Chunk>, j: nat)
    requires DistinctIds(prev) && DistinctIds(next) && j < |next|
    ensures Mentioned(prev, next, j) ==> Reported(prev, next)[NewDelta(prev, next, j)] == 1
    ensures forall d :: d in Reported(prev, next) && d.change != Removed && d.newId == next[j].id ==>
                d == NewDelta(prev, next, j)
  {
    NewMentionedIff(prev, next, j);
    if Rank(next, j) < |Bucket(prev, Key(next[j]))| {
      PairedOnce(prev, next, j);
    } else if Key(next[j]) !in Keys(prev) {
      AddedOnce(prev, next, j);
    }
  }

  lemma PairedOnce(prev: seq<Chunk>, next: seq<Chunk>, j: nat)
    requires DistinctIds(prev) && DistinctIds(next) && j < |next| && Rank(next, j) < |Bucket(prev, Key(next[j]))|
    ensures Reported(prev, next)[NewDelta(prev, next, j)] == 1
    ensures forall d :: d in Reported(prev, next) && d.change != Removed && d.newId == next[j].id ==>
                d == NewDelta(prev, next, j)
  {
    var i := BucketSource(prev, |prev|, Key(next[j]), Rank(next, j));
    RankBound(next, j, |next|);
    assert prev[i] in prev && OldDelta(prev, next, i) == NewDelta(prev, next, j);
    EveryOldOnce(prev, next, i);
    forall d | d in Reported(prev, next) && d.change != Removed && d.newId == next[j].id
      ensures d == NewDelta(prev, next, j) {
      var k := ReportedBy(prev, next, j, d);
      SameRank(prev, k, i);
    }
  }

  /** A delta that names a new chunk whose key is an old one pairs it. */
  lemma ReportedBy(prev: seq<Chunk>, next: seq<Chunk>, j: nat, d: ChunkDelta) returns (k: nat)
    requires DistinctIds(next) && j < |next| && Key(next[j]) in Keys(prev)
    requires d in Reported(prev, next) && d.change != Removed && d.newId == next[j].id
    ensures k < |prev| && d == OldDelta(prev, next, k) && Key(prev[k]) == Key(next[j]) && Rank(prev, k) == Rank(next, j)
  {
    InReported(prev, next, d);
    k :| 0 <= k < |prev| && d == OldDelta(prev, next, k);
    var j' := UnchangedTarget(prev, next, k);
    assert j' == j;
  }

  lemma SameRank(cs: seq<Chunk>, a: nat, b: nat)
    requires a < |cs| && b < |cs| && Key(cs[a]) == Key(cs[b]) && Rank(cs, a) == Rank(cs, b)
    ensures a == b
  {
    if a < b {
      RankGrows(cs, a, b);
    }
    if b < a {
      RankGrows(cs, b, a);
    }
  }

  lemma AddedOnce(prev: seq<Chunk>, next: seq<Chunk>, j: nat)
    requires DistinctIds(next) && j < |next| && Key(next[j]) !in Keys(prev)
    requires Rank(next, j) >= |Bucket(prev, Key(next[j]))|
    ensures Reported(prev, next)[NewDelta(prev, next, j)] == 1
    ensures forall d :: d in Reported(prev, next) && d.change != Removed && d.newId == next[j].id ==>
                d == NewDelta(prev, next, j)
  {
    AddedCount(prev, next, j);
    forall d | d in Reported(prev, next) && d.change != Removed && d.newId == next[j].id
      ensures d == NewDelta(prev, next, j) {
      AddedOnly(prev, next, j, d);
    }
  }

  lemma AddedCount(prev: seq<Chunk>, next: seq<Chunk>, j: nat)
    requires DistinctIds(next) && j < |next| && Key(next[j]) !in Keys(prev)
    ensures Reported(prev, next)[ChunkDelta(Added, next[j].id, "")] == 1
  {
    var mine := ChunkDelta(Added, next[j].id, "");
    assert next[j] in next;
    NewOnceAmong(next, |next|, Keys(next) - Keys(prev), j);
    InOldPart(prev, next, |prev|, Keys(prev), mine);
    assert mine !in OldPart(prev, next, |prev|, Keys(prev));
  }

  lemma AddedOnly(prev: seq<Chunk>, next: seq<Chunk>, j: nat, d: ChunkDelta)
    requires DistinctIds(next) && j < |next| && Key(next[j]) !in Keys(prev)
    requires d in Reported(prev, next) && d.change != Removed && d.newId == next[j].id
    ensures d == ChunkDelta(Added, next[j].id, "")
  {
    InReported(prev, next, d);
    forall k | 0 <= k < |prev| ensures d != OldDelta(prev, next, k) {
      NotPaired(prev, next, j, k);
    }
  }

  lemma NotPaired(prev: seq<Chunk>, next: seq<Chunk>, j: nat, k: nat)
    requires DistinctIds(next) && j < |next| && k < |prev| && Key(next[j]) !in Keys(prev)
    ensures OldDelta(prev, next, k).change == Removed || OldDelta(prev, next, k).newId != next[j].id
  {
    if OldDelta(prev, next, k).change.Unchanged? {
      var j' := UnchangedTarget(prev, next, k);
      assert prev[k] in prev && Key(next[j']) in Keys(prev);
    }
  }

  /** What a consumer's mirror of the old ids holds after applying the deltas: each takes away the old id
      it names, and brings the new one. */
  function Mirror(olds: set<ChunkId>, ds: multiset<ChunkDelta>): set<ChunkId> {
    olds - (set d | d in ds && d.change != Added :: d.prevId) + Brought(ds)
  }

  function Brought(ds: multiset<ChunkDelta>): set<ChunkId> {
    set d | d in ds && d.change != Removed :: d.newId
  }

  function Ids(cs: seq<Chunk>): set<ChunkId> {
    set c | c in cs :: c.id
  }

  /** No text that was already there has gained copies. */
  ghost predicate NoSurplus(prev: seq<Chunk>, next: seq<Chunk>) {
    forall h :: h in Keys(prev) ==> |Bucket(next, h)| <= |Bucket(prev, h)|
  }

  /** Every old id is taken away, so what the mirror holds is what the deltas brought. */
  lemma MirrorIsBrought(prev: seq<Chunk>, next: seq<Chunk>)
    ensures Mirror(Ids(prev), Reported(prev, next)) == Brought(Reported(prev, next))
  {
    var ds := Reported(prev, next);
    forall id | id in Ids(prev) ensures exists d :: d in ds && d.change != Added && d.prevId == id {
      var c :| c in prev && c.id == id;
      var i :| 0 <= i < |prev| && prev[i] == c;
      InReported(prev, next, OldDelta(prev, next, i));
    }
  }

  lemma BroughtWithin(prev: seq<Chunk>, next: seq<Chunk>)
    ensures Brought(Reported(prev, next)) <= Ids(next)
  {
    forall d | d in Reported(prev, next) && d.change != Removed ensures d.newId in Ids(next) {
      InReported(prev, next, d);
      if i: int :| 0 <= i < |prev| && d == OldDelta(prev, next, i) {
        var j := UnchangedTarget(prev, next, i);
        assert next[j] in next;
      } else {
        var j :| 0 <= j < |next| && d == ChunkDelta(Added, next[j].id, "");
        assert next[j] in next;
      }
    }
  }

  /** Applying the deltas turns the old chunk set into the new one exactly when no old text has
      gained copies. The code differs here from its comment, which counts a new surplus as added:
      the whole new bucket is discarded once its paired part is emitted. */
  lemma MirrorsIff(prev: seq<Chunk>, next: seq<Chunk>)
    requires DistinctIds(next)
    ensures Mirror(Ids(prev), Reported(prev, next)) == Ids(next) <==> NoSurplus(prev, next)
  {
    MirrorIsBrought(prev, next);
    BroughtWithin(prev, next);
    if NoSurplus(prev, next) {
      forall id | id in Ids(next) ensures id in Brought(Reported(prev, next)) {
        var c :| c in next && c.id == id;
        var j :| 0 <= j < |next| && next[j] == c;
        RankBound(next, j, |next|);
        NewMentionedIff(prev, next, j);
      }
    } else {
      var h :| h in Keys(prev) && |Bucket(next, h)| > |Bucket(prev, h)|;
      var j := BucketSource(next, |next|, h, |Bucket(prev, h)|);
      NewMentionedIff(prev, next, j);
      assert next[j] in next && next[j].id in Ids(next);
      assert next[j].id !in Brought(Reported(prev, next));
    }
  }

  /** The smallest case: a text that occurred once now occurs twice, and the second copy is not reported. */
  lemma SurplusCopyUnreported()
    ensures var prev := [Chunk("o1", "R")]; var next := [Chunk("n1", "R"), Chunk("n2", "R")];
            DistinctIds(next) && !Mentioned(prev, next, 1)
  {
    var prev := [Chunk("o1", "R")];
    var next := [Chunk("n1", "R"), Chunk("n2", "R")];
    NewMentionedIff(prev, next, 1);
    assert prev[0] in prev && Key(prev[0]) == "R";
    assert FirstBucket(next, 1, "R") == ["n1"];
    assert FirstBucket(prev, 1, "R") == ["o1"];
  }

  /** The remap is injective, and preserves order among chunks with the same text. */
  lemma RemapInjective(prev: seq<Chunk>, next: seq<Chunk>, remap: map<ChunkId, ChunkId>, a: nat, b: nat)
    requires DistinctIds(prev) && DistinctIds(next) && RemapFor(remap, prev, next, Keys(prev))
    requires a < b < |prev| && prev[a].id in remap && prev[b].id in remap
    ensures remap[prev[a].id] != remap[prev[b].id]
    ensures Key(prev[a]) == Key(prev[b]) ==>
              exists i, j :: 0 <= i < j < |next| && next[i].id == remap[prev[a].id] && next[j].id == remap[prev[b].id]
  {
    var i := RemapTarget(prev, next, remap, a);
    var j := RemapTarget(prev, next, remap, b);
    if Key(prev[a]) == Key(prev[b]) {
      RankGrows(prev, a, b);
      SmallerRank(next, i, j);
    } else {
      assert i != j;
    }
  }

  lemma SmallerRank(cs: seq<Chunk>, i: nat, j: nat)
    requires i < |cs| && j < |cs| && Key(cs[i]) == Key(cs[j]) && Rank(cs, i) < Rank(cs, j)
    ensures i < j
  {
    if j <= i {
      BucketPrefix(cs, j, i, Key(cs[i]));
    }
  }

  lemma RemapTarget(prev: seq<Chunk>, next: seq<Chunk>, remap: map<ChunkId, ChunkId>, a: nat) returns (i: nat)
    requires DistinctIds(prev) && RemapFor(remap, prev, next, Keys(prev)) && a < |prev| && prev[a].id in remap
    ensures i < |next| && next[i].id == remap[prev[a].id] && Key(next[i]) == Key(prev[a])
    ensures Rank(next, i) == Rank(prev, a)
  {
    assert prev[a] in prev;
    var x :| 0 <= x < |prev| && prev[x].id == prev[a].id && Rank(prev, x) < |Bucket(next, Key(prev[x]))|;
    assert x == a;
    i := BucketSource(next, |next|, Key(prev[a]), Rank(prev, a));
  }

  lemma {:induction false} BucketPrefix(cs: seq<Chunk>, m: nat, n: nat, h: string)
    requires m <= n <= |cs|
    ensures |FirstBucket(cs, m, h)| <= |FirstBucket(cs, n, h)|
  {
    if m < n {
      BucketPrefix(cs, m, n - 1, h);
    }
  }

  lemma RankGrows(cs: seq<Chunk>, a: nat, b: nat)
    requires a < b < |cs| && Key(cs[a]) == Key(cs[b])
    ensures Rank(cs, a) < Rank(cs, b)
  {
    BucketPrefix(cs, a + 1, b, Key(cs[a]));
  }

  // ----- Embeddings kept across a re-ingest -----

  type Model = string
  type Text = string
  type Vector = string

  datatype Embedding = Embedding(model: Model, vector: Vector)

  /** Copies the record of each unchanged chunk made by the current model to its new id. */
  method PreserveEmbeds(store: map<ChunkId, Embedding>, oldEmbeds: map<ChunkId, Embedding>,
                        remap: map<ChunkId, ChunkId>, current: Model)
    returns (after: map<ChunkId, Embedding>)
    requires forall a, b :: a in remap && b in remap && a != b ==> remap[a] != remap[b]
    ensures forall o :: o in remap && o in oldEmbeds && oldEmbeds[o].model == current
              ==> remap[o] in after && after[remap[o]] == oldEmbeds[o]
    ensures forall c :: c in after && (c !in store || after[c] != store[c])
              ==> exists o ::
                    o in remap && remap[o] == c && o in oldEmbeds && oldEmbeds[o].model == current
                    && after[c] == oldEmbeds[o]
    ensures store.Keys <= after.Keys
  {
    after := store;
    var todo := remap.Keys;
    while todo != {}
      invariant todo <= remap.Keys && store.Keys <= after.Keys
      invariant forall o :: o in remap && o !in todo && o in oldEmbeds && oldEmbeds[o].model == current
                  ==> remap[o] in after && after[remap[o]] == oldEmbeds[o]
      invariant forall c :: c in after && (c !in store || after[c] != store[c])
                  ==> exists o ::
                        o in remap && remap[o] == c && o in oldEmbeds && oldEmbeds[o].model == current
                        && after[c] == oldEmbeds[o]
      decreases todo
    {
      var o :| o in todo;
      if o in oldEmbeds && oldEmbeds[o].model == current {
        after := after[remap[o] := oldEmbeds[o]];
      }
      todo := todo - {o};
    }
  }

  /** New chunks carry the hash of their text; an old one may predate hashing. */
  ghost predicate Hashed(hash: Text -> string, text: ChunkId -> Text, cs: seq<Chunk>) {
    forall i :: 0 <= i < |cs| ==> cs[i].contentHash == hash(text(cs[i].id))
  }

  lemma HashedKey(c: Chunk, k: string)
    requires Key(c) == k && k != "" && k[0] != '\0'
    ensures c.contentHash == k
  {
  }

  /** No stale vector: under a collision-free hash and a deterministic embedder, a record copied
      for an unchanged chunk is the current model's vector of the new chunk's own text. */
  lemma CopiesAreCurrent(
    hash: Text -> string, text: ChunkId -> Text, embed: (Model, Text) -> Vector,
    prev: seq<Chunk>, next: seq<Chunk>, remap: map<ChunkId, ChunkId>,
    oldEmbeds: map<ChunkId, Embedding>, current: Model, o: ChunkId)
    requires forall a, b :: hash(a) == hash(b) ==> a == b
    requires forall a :: hash(a) != "" && hash(a)[0] != '\0'
    requires DistinctIds(prev) && RemapFor(remap, prev, next, Keys(prev)) && Hashed(hash, text, next)
    requires forall i :: 0 <= i < |prev| ==> prev[i].contentHash == "" || prev[i].contentHash == hash(text(prev[i].id))
    requires forall id :: id in oldEmbeds ==> oldEmbeds[id].vector == embed(oldEmbeds[id].model, text(id))
    requires o in remap && o in oldEmbeds && oldEmbeds[o].model == current
    ensures oldEmbeds[o].vector == embed(current, text(remap[o]))
  {
    var a :| 0 <= a < |prev| && prev[a].id == o;
    var i := RemapTarget(prev, next, remap, a);
    HashedKey(prev[a], hash(text(next[i].id)));
  }
}
