/** The result cache and its epoch (internal/engine/query.go, internal/engine/epoch.go): any number
    of overlapping queries and mutators, where mutating the index and bumping the epoch are two steps. */
module Coherence {
  import opened Lru

  type Request = string    // the query text and every other retrieval-affecting field of the key
  type Location = string   // what a retrieval looks at: a posting list, a vector, a chunk record
  type Value = string
  type Corpus = map<Location, Value>
  type QueryId = nat

  /** Retrieval as a deterministic reader: what it looks at next, given what it has seen. */
  type Retrieval = (Request, seq<Option<Value>>) -> Option<Location>

  /** One observation. `stamp` is the number of mutations made before it, `epoch` the epoch then;
      both are bookkeeping for the statements below. */
  datatype Reading = Reading(loc: Location, val: Option<Value>, stamp: nat, epoch: nat)

  datatype Key = Key(req: Request, epoch: nat)

  /** `seen` and `start` record which mutations were already bumped, and how many had happened,
      when the query read the epoch. */
  datatype Query =
    | Looking(req: Request, noCache: bool, keyEpoch: nat, seen: set<nat>, start: nat)
    | Retrieving(req: Request, keyEpoch: nat, seen: set<nat>, start: nat, readings: seq<Reading>)
    | Storing(req: Request, keyEpoch: nat, seen: set<nat>, start: nat, readings: seq<Reading>)
    | Done(req: Request, seen: set<nat>, start: nat, result: seq<Reading>)

  /** `history` holds every corpus so far, the current one last; mutation `m` made `history[m + 1]`,
      and `bumpAt[m]` is the epoch after its bump. */
  datatype State = State(
    cap: int,
    history: seq<Corpus>,
    epoch: nat,
    bumpAt: map<nat, nat>,
    cache: seq<Pair<Key, seq<Reading>>>,
    queries: map<QueryId, Query>)
  {
    function Mutations(): int { |history| - 1 }
  }

  datatype Step =
    | Mutate(after: Corpus)
    | Bump(mutation: nat)
    | SpareBump                                    // a bump with no mutation of its own
    | ReadEpoch(id: QueryId, req: Request, noCache: bool)
    | LookUp(id: QueryId)
    | Read(id: QueryId)
    | Recheck(id: QueryId, rerankFailed: bool)
    | Store(id: QueryId)
    | FlushAll

  function Vals(rs: seq<Reading>): (vs: seq<Option<Value>>)
    ensures |vs| == |rs| && forall i :: 0 <= i < |rs| ==> vs[i] == rs[i].val
  {
    seq(|rs|, i requires 0 <= i < |rs| => rs[i].val)
  }

  function Peek(c: Corpus, loc: Location): Option<Value> {
    if loc in c then Some(c[loc]) else None
  }

  function Init(cap: int, corpus: Corpus): State {
    State(cap, [corpus], 0, map[], [], map[])
  }

  /** A step that is not enabled leaves the state alone. */
  function Apply(next: Retrieval, s: State, step: Step): State
    requires s.history != []
  {
    match step
    case Mutate(after) => s.(history := s.history + [after])
    case Bump(m) =>
      if m < s.Mutations() && m !in s.bumpAt
      then s.(epoch := s.epoch + 1, bumpAt := s.bumpAt[m := s.epoch + 1])
      else s
    case SpareBump => s.(epoch := s.epoch + 1)
    case ReadEpoch(id, req, noCache) =>
      if id in s.queries then s
      else s.(queries := s.queries[id := Looking(req, noCache, s.epoch, s.bumpAt.Keys, s.Mutations())])
    case LookUp(id) =>
      if id in s.queries && s.queries[id].Looking? then
        var q := s.queries[id];
        var miss := Retrieving(q.req, q.keyEpoch, q.seen, q.start, []);
        if q.noCache || s.cap <= 0 then s.(queries := s.queries[id := miss])
        else
          var key := Key(q.req, q.keyEpoch);
          match Lookup(s.cache, key)
          case None => s.(queries := s.queries[id := miss])
          case Some(r) =>
            s.(cache := AfterGet(s.cap, s.cache, key),
               queries := s.queries[id := Done(q.req, q.seen, q.start, r)])
      else s
    case Read(id) =>
      if id in s.queries && s.queries[id].Retrieving? then
        var q := s.queries[id];
        match next(q.req, Vals(q.readings))
        case None => s
        case Some(loc) =>
          var r := Reading(loc, Peek(s.history[s.Mutations()], loc), s.Mutations(), s.epoch);
          s.(queries := s.queries[id := Retrieving(q.req, q.keyEpoch, q.seen, q.start, q.readings + [r])])
      else s
    case Recheck(id, rerankFailed) =>
      if id in s.queries && s.queries[id].Retrieving?
         && next(s.queries[id].req, Vals(s.queries[id].readings)).None? then
        var q := s.queries[id];
        if s.cap > 0 && !rerankFailed && s.epoch == q.keyEpoch
        then s.(queries := s.queries[id := Storing(q.req, q.keyEpoch, q.seen, q.start, q.readings)])
        else s.(queries := s.queries[id := Done(q.req, q.seen, q.start, q.readings)])
      else s
    case Store(id) =>
      if id in s.queries && s.queries[id].Storing? then
        var q := s.queries[id];
        s.(cache := AfterPut(s.cap, s.cache, Key(q.req, q.keyEpoch), q.readings),
           queries := s.queries[id := Done(q.req, q.seen, q.start, q.readings)])
      else s
    case FlushAll => s.(cache := [])
  }

  function Run(next: Retrieval, s: State, steps: seq<Step>): (r: State)
    requires s.history != []
    ensures r.history != []
    decreases steps
  {
    if steps == [] then s else Apply(next, Run(next, s, steps[..|steps| - 1]), steps[|steps| - 1])
  }

  /** The readings are what `next` asks for, each with the value its corpus held. */
  ghost predicate Transcript(next: Retrieval, history: seq<Corpus>, req: Request, rs: seq<Reading>) {
    forall i :: 0 <= i < |rs| ==>
      && rs[i].stamp < |history|
      && next(req, Vals(rs[..i])) == Some(rs[i].loc)
      && rs[i].val == Peek(history[rs[i].stamp], rs[i].loc)
  }

  ghost predicate Complete(next: Retrieval, history: seq<Corpus>, req: Request, rs: seq<Reading>) {
    Transcript(next, history, req, rs) && next(req, Vals(rs)).None?
  }

  /** No part of the result was read before mutation `m` took effect. */
  ghost predicate After(rs: seq<Reading>, m: nat) {
    forall i :: 0 <= i < |rs| ==> m < rs[i].stamp
  }

  ghost predicate InEpoch(rs: seq<Reading>, epoch: nat) {
    forall i :: 0 <= i < |rs| ==> rs[i].epoch == epoch
  }

  ghost predicate GoodEntry(next: Retrieval, s: State, key: Key, rs: seq<Reading>) {
    && key.epoch <= s.epoch
    && Complete(next, s.history, key.req, rs)
    && InEpoch(rs, key.epoch)
    && forall m :: m in s.bumpAt && s.bumpAt[m] <= key.epoch ==> After(rs, m)
  }

  /** What a query carries from its epoch read: exactly the mutations bumped by then. */
  ghost predicate GoodStart(s: State, keyEpoch: nat, seen: set<nat>, start: nat) {
    && keyEpoch <= s.epoch && start <= s.Mutations()
    && (forall m :: m in seen ==> m < start && m in s.bumpAt)
    && (forall m :: m in s.bumpAt && s.bumpAt[m] <= keyEpoch ==> m in seen)
    && (forall m :: m in seen ==> s.bumpAt[m] <= keyEpoch)
  }

  ghost predicate GoodQuery(next: Retrieval, s: State, q: Query) {
    match q
    case Looking(_, _, keyEpoch, seen, start) => GoodStart(s, keyEpoch, seen, start)
    case Retrieving(req, keyEpoch, seen, start, rs) =>
      && GoodStart(s, keyEpoch, seen, start)
      && Transcript(next, s.history, req, rs)
      && forall i :: 0 <= i < |rs| ==> start <= rs[i].stamp && keyEpoch <= rs[i].epoch <= s.epoch
    case Storing(req, keyEpoch, seen, start, rs) =>
      && GoodStart(s, keyEpoch, seen, start)
      && Complete(next, s.history, req, rs)
      && InEpoch(rs, keyEpoch)
      && forall i :: 0 <= i < |rs| ==> start <= rs[i].stamp
    case Done(req, seen, start, rs) =>
      && Complete(next, s.history, req, rs)
      && forall m :: m in seen ==> After(rs, m)
  }

  ghost predicate Inv(next: Retrieval, s: State) {
    && s.history != []
    && (forall m :: m in s.bumpAt ==> m < s.Mutations() && s.bumpAt[m] <= s.epoch)
    && (forall i :: 0 <= i < |s.cache| ==> GoodEntry(next, s, s.cache[i].key, s.cache[i].val))
    && (forall id :: id in s.queries ==> GoodQuery(next, s, s.queries[id]))
  }

  /** Growing the history and bumping later mutations keeps what was known. */
  ghost predicate Extends(s: State, s': State) {
    && s.history <= s'.history
    && s.epoch <= s'.epoch
    && (forall m :: m in s.bumpAt ==> m in s'.bumpAt && s'.bumpAt[m] == s.bumpAt[m])
    && (forall m :: m in s'.bumpAt && m !in s.bumpAt ==> s'.bumpAt[m] > s.epoch)
  }

  lemma EntryKept(next: Retrieval, s: State, s': State, key: Key, rs: seq<Reading>)
    requires s.history != [] && Extends(s, s') && GoodEntry(next, s, key, rs)
    ensures GoodEntry(next, s', key, rs)
  {
  }

  lemma QueryKept(next: Retrieval, s: State, s': State, q: Query)
    requires s.history != [] && Extends(s, s') && GoodQuery(next, s, q)
    ensures GoodQuery(next, s', q)
  {
  }

  lemma InvKept(next: Retrieval, s: State, s': State)
    requires Inv(next, s) && Extends(s, s')
    requires s'.cache == s.cache && s'.queries == s.queries
    requires forall m :: m in s'.bumpAt ==> m < s'.Mutations() && s'.bumpAt[m] <= s'.epoch
    ensures Inv(next, s')
  {
    forall i | 0 <= i < |s'.cache| ensures GoodEntry(next, s', s'.cache[i].key, s'.cache[i].val) {
      EntryKept(next, s, s', s.cache[i].key, s.cache[i].val);
    }
    forall id | id in s'.queries ensures GoodQuery(next, s', s'.queries[id]) {
      QueryKept(next, s, s', s.queries[id]);
    }
  }

  lemma QuerySet(next: Retrieval, s: State, id: QueryId, q: Query)
    requires Inv(next, s) && GoodQuery(next, s, q)
    ensures Inv(next, s.(queries := s.queries[id := q]))
  {
    var s' := s.(queries := s.queries[id := q]);
    forall i | 0 <= i < |s'.cache| ensures GoodEntry(next, s', s'.cache[i].key, s'.cache[i].val) {
      EntryKept(next, s, s', s.cache[i].key, s.cache[i].val);
    }
    forall k | k in s'.queries ensures GoodQuery(next, s', s'.queries[k]) {
      QueryKept(next, s, s', if k == id then q else s.queries[k]);
    }
  }

  /** The cache may forget, reorder, or gain a good entry in front. */
  lemma CacheSet(next: Retrieval, s: State, cache: seq<Pair<Key, seq<Reading>>>)
    requires Inv(next, s)
    requires forall i :: 0 <= i < |cache| ==> GoodEntry(next, s, cache[i].key, cache[i].val)
    ensures Inv(next, s.(cache := cache))
  {
    var s' := s.(cache := cache);
    forall i | 0 <= i < |cache| ensures GoodEntry(next, s', cache[i].key, cache[i].val) {
      EntryKept(next, s, s', cache[i].key, cache[i].val);
    }
    forall k | k in s'.queries ensures GoodQuery(next, s', s'.queries[k]) {
      QueryKept(next, s, s', s.queries[k]);
    }
  }

  lemma FrontedGood(next: Retrieval, s: State, p: Pair<Key, seq<Reading>>, l: seq<Pair<Key, seq<Reading>>>, i: nat)
    requires Inv(next, s) && GoodEntry(next, s, p.key, p.val)
    requires l == [p] + Without(s.cache, p.key) && i < |l|
    ensures GoodEntry(next, s, l[i].key, l[i].val)
  {
    if i > 0 {
      var j := WithoutKeeps(s.cache, p.key, i - 1);
      assert l[i] == s.cache[j];
    }
  }

  lemma ReadKeepsInv(next: Retrieval, s: State, id: QueryId)
    requires Inv(next, s) && id in s.queries && s.queries[id].Retrieving?
    requires next(s.queries[id].req, Vals(s.queries[id].readings)).Some?
    ensures Inv(next, Apply(next, s, Read(id)))
  {
    var q := s.queries[id];
    var loc := next(q.req, Vals(q.readings)).value;
    var r := Reading(loc, Peek(s.history[s.Mutations()], loc), s.Mutations(), s.epoch);
    var rs := q.readings + [r];
    assert GoodQuery(next, s, q);
    forall i | 0 <= i < |rs|
      ensures rs[i].stamp < |s.history|
      ensures next(q.req, Vals(rs[..i])) == Some(rs[i].loc)
      ensures rs[i].val == Peek(s.history[rs[i].stamp], rs[i].loc)
    {
      if i < |q.readings| {
        assert rs[..i] == q.readings[..i];
      } else {
        assert rs[..i] == q.readings;
      }
    }
    QuerySet(next, s, id, Retrieving(q.req, q.keyEpoch, q.seen, q.start, rs));
  }

  lemma LookUpKeepsInv(next: Retrieval, s: State, id: QueryId)
    requires Inv(next, s) && id in s.queries && s.queries[id].Looking?
    ensures Inv(next, Apply(next, s, LookUp(id)))
  {
    var q := s.queries[id];
    var key := Key(q.req, q.keyEpoch);
    assert GoodQuery(next, s, q);
    if q.noCache || s.cap <= 0 || Lookup(s.cache, key).None? {
      QuerySet(next, s, id, Retrieving(q.req, q.keyEpoch, q.seen, q.start, []));
    } else {
      LookupNone(s.cache, key);
      var r := Lookup(s.cache, key).value;
      assert GoodEntry(next, s, key, r);
      assert GoodQuery(next, s, Done(q.req, q.seen, q.start, r));
      QuerySet(next, s, id, Done(q.req, q.seen, q.start, r));
      var s1 := s.(queries := s.queries[id := Done(q.req, q.seen, q.start, r)]);
      var moved := [Pair(key, r)] + Without(s.cache, key);
      forall i | 0 <= i < |moved| ensures GoodEntry(next, s1, moved[i].key, moved[i].val) {
        FrontedGood(next, s1, Pair(key, r), moved, i);
      }
      CacheSet(next, s1, moved);
    }
  }

  lemma RecheckKeepsInv(next: Retrieval, s: State, id: QueryId, rerankFailed: bool)
    requires Inv(next, s) && id in s.queries && s.queries[id].Retrieving?
    requires next(s.queries[id].req, Vals(s.queries[id].readings)).None?
    ensures Inv(next, Apply(next, s, Recheck(id, rerankFailed)))
  {
    var q := s.queries[id];
    assert GoodQuery(next, s, q);
    QuerySet(next, s, id, Done(q.req, q.seen, q.start, q.readings));
    if s.epoch == q.keyEpoch {
      QuerySet(next, s, id, Storing(q.req, q.keyEpoch, q.seen, q.start, q.readings));
    }
  }

  lemma StoreKeepsInv(next: Retrieval, s: State, id: QueryId)
    requires Inv(next, s) && id in s.queries && s.queries[id].Storing?
    ensures Inv(next, Apply(next, s, Store(id)))
  {
    var q := s.queries[id];
    assert GoodQuery(next, s, q);
    QuerySet(next, s, id, Done(q.req, q.seen, q.start, q.readings));
    var s1 := s.(queries := s.queries[id := Done(q.req, q.seen, q.start, q.readings)]);
    if s.cap > 0 {
      var p := Pair(Key(q.req, q.keyEpoch), q.readings);
      assert GoodEntry(next, s1, p.key, p.val);
      var grown := [p] + Without(s1.cache, p.key);
      var kept := if |grown| > s.cap then grown[..|grown| - 1] else grown;
      forall i | 0 <= i < |kept| ensures GoodEntry(next, s1, kept[i].key, kept[i].val) {
        FrontedGood(next, s1, p, grown, i);
        assert kept[i] == grown[i];
      }
      CacheSet(next, s1, kept);
    }
  }

  lemma StepKeepsInv(next: Retrieval, s: State, step: Step)
    requires Inv(next, s)
    ensures Inv(next, Apply(next, s, step))
  {
    var s' := Apply(next, s, step);
    if s' != s {
      match step
      case Mutate(_) => InvKept(next, s, s');
      case Bump(_) => InvKept(next, s, s');
      case SpareBump => InvKept(next, s, s');
      case ReadEpoch(id, req, noCache) =>
        QuerySet(next, s, id, Looking(req, noCache, s.epoch, s.bumpAt.Keys, s.Mutations()));
      case LookUp(id) => LookUpKeepsInv(next, s, id);
      case Read(id) => ReadKeepsInv(next, s, id);
      case Recheck(id, rerankFailed) => RecheckKeepsInv(next, s, id, rerankFailed);
      case Store(id) => StoreKeepsInv(next, s, id);
      case FlushAll => CacheSet(next, s, []);
    }
  }

  lemma {:induction false} RunKeepsInv(next: Retrieval, cap: int, corpus: Corpus, steps: seq<Step>)
    ensures Inv(next, Run(next, Init(cap, corpus), steps))
    decreases steps
  {
    if steps != [] {
      RunKeepsInv(next, cap, corpus, steps[..|steps| - 1]);
      StepKeepsInv(next, Run(next, Init(cap, corpus), steps[..|steps| - 1]), steps[|steps| - 1]);
    }
  }

  /** Coherence. In every run, what a query returns (from the cache or freshly computed) is a complete
      retrieval for its own request, and no part of it was read before any mutation whose bump
      preceded the query's epoch read. */
  lemma Coherent(next: Retrieval, cap: int, corpus: Corpus, steps: seq<Step>, id: QueryId)
    requires var s := Run(next, Init(cap, corpus), steps); id in s.queries && s.queries[id].Done?
    ensures var s := Run(next, Init(cap, corpus), steps); var q := s.queries[id];
            && Complete(next, s.history, q.req, q.result)
            && forall m, i :: m in q.seen && 0 <= i < |q.result| ==> m < q.result[i].stamp
  {
    RunKeepsInv(next, cap, corpus, steps);
  }

  /** The final epoch check at work: everything in a stored result was read while the epoch was
      the one in its key, so no bump fell inside the retrieval. */
  lemma StoredWithinOneEpoch(next: Retrieval, cap: int, corpus: Corpus, steps: seq<Step>, key: Key)
    requires Lookup(Run(next, Init(cap, corpus), steps).cache, key).Some?
    ensures var s := Run(next, Init(cap, corpus), steps); var rs := Lookup(s.cache, key).value;
            && Complete(next, s.history, key.req, rs)
            && forall i :: 0 <= i < |rs| ==> rs[i].epoch == key.epoch
  {
    RunKeepsInv(next, cap, corpus, steps);
    LookupNone(Run(next, Init(cap, corpus), steps).cache, key);
  }

  // ----- When the cache answers, and when it must not -----

  /** What the step reads for the query: a location of the corpus as it then is. */
  function NewReading(next: Retrieval, u: State, step: Step, id: QueryId): seq<Reading>
    requires u.history != []
  {
    if step == Read(id) && id in u.queries && u.queries[id].Retrieving? then
      match next(u.queries[id].req, Vals(u.queries[id].readings))
      case None => []
      case Some(loc) =>
        var now := u.Mutations();
        [Reading(loc, if loc in u.history[now] then Some(u.history[now][loc]) else None, now, u.epoch)]
    else []
  }

  /** All that the query reads in the run, in order. */
  function ReadLog(next: Retrieval, s: State, steps: seq<Step>, id: QueryId): seq<Reading>
    requires s.history != []
    decreases steps
  {
    if steps == [] then []
    else
      var init := steps[..|steps| - 1];
      ReadLog(next, s, init, id) + NewReading(next, Run(next, s, init), steps[|steps| - 1], id)
  }

  function ReadingsOf(q: Query): seq<Reading> {
    match q
    case Looking(_, _, _, _, _) => []
    case Retrieving(_, _, _, _, rs) => rs
    case Storing(_, _, _, _, rs) => rs
    case Done(_, _, _, rs) => rs
  }

  /** The query exists, and will not look into the cache any more, or was told not to. */
  predicate OnItsOwn(u: State, id: QueryId) {
    id in u.queries && (u.queries[id].Looking? ==> u.queries[id].noCache)
  }

  lemma QueryStep(next: Retrieval, u: State, step: Step, id: QueryId)
    requires u.history != [] && OnItsOwn(u, id)
    ensures var t := Apply(next, u, step);
            OnItsOwn(t, id) && ReadingsOf(t.queries[id]) == ReadingsOf(u.queries[id]) + NewReading(next, u, step, id)
  {
  }

  lemma {:induction false} NothingReadBefore(next: Retrieval, s: State, steps: seq<Step>, id: QueryId)
    requires s.history != [] && id !in Run(next, s, steps).queries
    ensures ReadLog(next, s, steps, id) == []
    decreases steps
  {
    if steps != [] {
      var init := steps[..|steps| - 1];
      QueriesStay(next, Run(next, s, init), steps[|init|], id);
      NothingReadBefore(next, s, init, id);
    }
  }

  lemma QueriesStay(next: Retrieval, u: State, step: Step, id: QueryId)
    requires u.history != []
    ensures id in u.queries ==> id in Apply(next, u, step).queries
  {
  }

  lemma BeginsFresh(next: Retrieval, s: State, steps: seq<Step>, id: QueryId, req: Request)
    requires s.history != [] && id !in Run(next, s, steps).queries
    ensures var t := Apply(next, Run(next, s, steps), ReadEpoch(id, req, true));
            OnItsOwn(t, id) && ReadingsOf(t.queries[id]) == ReadLog(next, s, steps, id) == []
  {
    NothingReadBefore(next, s, steps, id);
  }

  /** A query that asked for no cached answer returns exactly what it read itself, after it began. */
  lemma {:induction false} NoCacheReadsItself(next: Retrieval, s: State, before: seq<Step>, after: seq<Step>,
                                              id: QueryId, req: Request)
    requires s.history != [] && id !in Run(next, s, before).queries
    ensures var steps := before + [ReadEpoch(id, req, true)] + after;
            OnItsOwn(Run(next, s, steps), id)
            && ReadingsOf(Run(next, s, steps).queries[id]) == ReadLog(next, s, steps, id)
    decreases after
  {
    var began := before + [ReadEpoch(id, req, true)];
    var steps := began + after;
    if after == [] {
      assert steps == began && began[..|before|] == before;
      BeginsFresh(next, s, before, id, req);
    } else {
      var init := after[..|after| - 1];
      assert steps[..|steps| - 1] == began + init;
      NoCacheReadsItself(next, s, before, init, id, req);
      QueryStep(next, Run(next, s, began + init), steps[|steps| - 1], id);
    }
  }

  /** A finished retrieval within one epoch is stored, and the same request asked in that epoch is then
      answered with its readings, and reads nothing. */
  lemma AskedAgainHits(next: Retrieval, s: State, id: QueryId, again: QueryId)
    requires s.history != [] && id in s.queries && s.queries[id].Retrieving? && again !in s.queries
    requires s.cap > 0 && next(s.queries[id].req, Vals(s.queries[id].readings)).None?
    requires s.queries[id].keyEpoch == s.epoch
    ensures var q := s.queries[id];
            var stored := Apply(next, Apply(next, s, Recheck(id, false)), Store(id));
            var t := Apply(next, Apply(next, stored, ReadEpoch(again, q.req, false)), LookUp(again));
            && stored.queries[id] == Done(q.req, q.seen, q.start, q.readings)
            && again in t.queries && t.queries[again] == Done(q.req, s.bumpAt.Keys, s.Mutations(), q.readings)
  {
    var q := s.queries[id];
    var key := Key(q.req, q.keyEpoch);
    var a := Apply(next, s, Recheck(id, false));
    assert a.queries[id].Storing?;
    var stored := Apply(next, a, Store(id));
    assert stored.cache == AfterPut(s.cap, s.cache, key, q.readings);
    assert stored.cache[0] == Pair(key, q.readings);
    assert Lookup(stored.cache, key) == Some(q.readings);
  }

  /** When the reranker failed, or the epoch moved on during the retrieval, nothing is stored. */
  lemma NotStored(next: Retrieval, s: State, id: QueryId, rerankFailed: bool)
    requires s.history != [] && id in s.queries && s.queries[id].Retrieving?
    requires next(s.queries[id].req, Vals(s.queries[id].readings)).None?
    requires rerankFailed || s.queries[id].keyEpoch != s.epoch || s.cap <= 0
    ensures var q := s.queries[id]; var t := Apply(next, s, Recheck(id, rerankFailed));
            t.cache == s.cache && t.queries[id] == Done(q.req, q.seen, q.start, q.readings)
  {
  }

  /** No answer stored before a bump is found after it: the next query retrieves anew. */
  lemma BumpMisses(next: Retrieval, s: State, bump: Step, id: QueryId, req: Request, noCache: bool)
    requires Inv(next, s) && id !in s.queries
    requires bump == SpareBump || (bump.Bump? && bump.mutation < s.Mutations() && bump.mutation !in s.bumpAt)
    ensures var b := Apply(next, s, bump);
            var t := Apply(next, Apply(next, b, ReadEpoch(id, req, noCache)), LookUp(id));
            && b.epoch == s.epoch + 1 && t.cache == s.cache
            && (bump.Bump? ==> b.bumpAt == s.bumpAt[bump.mutation := b.epoch])
            && id in t.queries && t.queries[id] == Retrieving(req, b.epoch, b.bumpAt.Keys, s.Mutations(), [])
  {
    var key := Key(req, s.epoch + 1);
    if Lookup(s.cache, key).Some? {
      StoredEarlier(next, s, key);
    }
  }

  /** Nor any after a flush. */
  lemma FlushMisses(next: Retrieval, s: State, id: QueryId, req: Request)
    requires s.history != [] && id !in s.queries
    ensures var t := Apply(next, Apply(next, Apply(next, s, FlushAll), ReadEpoch(id, req, false)), LookUp(id));
            id in t.queries && t.queries[id] == Retrieving(req, s.epoch, s.bumpAt.Keys, s.Mutations(), [])
  {
  }

  /** A read after a mutation reads what the mutation left. */
  lemma ReadsCurrent(next: Retrieval, s: State, after: Corpus, id: QueryId)
    requires s.history != [] && id in s.queries && s.queries[id].Retrieving?
    requires next(s.queries[id].req, Vals(s.queries[id].readings)).Some?
    ensures var q := s.queries[id]; var loc := next(q.req, Vals(q.readings)).value;
            var t := Apply(next, Apply(next, s, Mutate(after)), Read(id));
            && id in t.queries && t.queries[id].Retrieving? && |t.queries[id].readings| == |q.readings| + 1
            && (var r := t.queries[id].readings[|q.readings|];
                r.loc == loc && r.val == (if loc in after then Some(after[loc]) else None)
                && r.stamp == |s.history| && r.epoch == s.epoch)
  {
  }

  lemma StoredEarlier(next: Retrieval, s: State, key: Key)
    requires Inv(next, s) && Lookup(s.cache, key).Some?
    ensures key.epoch <= s.epoch
  {
    LookupNone(s.cache, key);
    var i :| 0 <= i < |s.cache| && s.cache[i] == Pair(key, Lookup(s.cache, key).value);
    assert GoodEntry(next, s, s.cache[i].key, s.cache[i].val);
  }

  /** A cold retrieval over one fixed corpus. */
  ghost predicate ColdAnswer(next: Retrieval, corpus: Corpus, req: Request, vals: seq<Option<Value>>) {
    && next(req, vals).None?
    && forall i :: 0 <= i < |vals| ==>
         next(req, vals[..i]).Some? && vals[i] == Peek(corpus, next(req, vals[..i]).value)
  }

  lemma {:induction false} ColdPrefixUnique(
    next: Retrieval, corpus: Corpus, req: Request, a: seq<Option<Value>>, b: seq<Option<Value>>, n: nat)
    requires ColdAnswer(next, corpus, req, a) && ColdAnswer(next, corpus, req, b)
    requires n <= |a|
    ensures n <= |b| && a[..n] == b[..n]
  {
    if n > 0 {
      ColdPrefixUnique(next, corpus, req, a, b, n - 1);
      assert b[..n - 1] == a[..n - 1] && next(req, a[..n - 1]).Some?;
      assert b[..|b|] == b;
      assert a[..n] == a[..n - 1] + [a[n - 1]] && b[..n] == b[..n - 1] + [b[n - 1]];
    }
  }

  /** Transparency. If every mutation made so far had been bumped when the query read the epoch, and none
      happened before it returned, then the answer is the one a cold retrieval over the current
      corpus gives: the cache changes latency and nothing else. */
  lemma Transparent(next: Retrieval, cap: int, corpus: Corpus, steps: seq<Step>, id: QueryId, cold: seq<Option<Value>>)
    requires var s := Run(next, Init(cap, corpus), steps);
             && id in s.queries && s.queries[id].Done?
             && (forall m: nat :: m < s.Mutations() ==> m in s.queries[id].seen)
             && ColdAnswer(next, s.history[s.Mutations()], s.queries[id].req, cold)
    ensures Vals(Run(next, Init(cap, corpus), steps).queries[id].result) == cold
  {
    var s := Run(next, Init(cap, corpus), steps);
    var q := s.queries[id];
    RunKeepsInv(next, cap, corpus, steps);
    var vals := Vals(q.result);
    forall i | 0 <= i < |vals|
      ensures next(q.req, vals[..i]).Some?
      ensures vals[i] == Peek(s.history[s.Mutations()], next(q.req, vals[..i]).value)
    {
      assert vals[..i] == Vals(q.result[..i]);
      var stamp := q.result[i].stamp;
      assert stamp < s.Mutations() ==> stamp in q.seen;
    }
    ColdPrefixUnique(next, s.history[s.Mutations()], q.req, vals, cold, |vals|);
    ColdPrefixUnique(next, s.history[s.Mutations()], q.req, cold, vals, |cold|);
    assert vals[..|vals|] == vals && cold[..|cold|] == cold;
  }
}
