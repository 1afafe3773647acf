/** The background embedder's drain loop (internal/embedproc/processor.go): batches, the copied-vector
    fast path, isolation of failing texts, and why a drain ends. The embedder answers as it likes. */
module Processor {
  import opened Circuit

  type Id = string
  type Text = string
  type Vec = seq<real>

  datatype Option<T> = None | Some(value: T)

  datatype Rec = Rec(model: string, vec: Vec)

  datatype Status = Pending | Failed

  const MaxBatch: nat := 32

  /** The n-th call to the embedder: an error, or an answer of any length, whose entries may be missing. */
  type Embedder = (nat, seq<Text>) -> Option<seq<Option<Vec>>>

  datatype Item = Item(id: Id, text: Text)

  ghost predicate DistinctItems(batch: seq<Item>) {
    forall i, j :: 0 <= i < j < |batch| ==> batch[i].id != batch[j].id
  }

  function PendingIn(queue: map<Id, Status>): set<Id> {
    set c | c in queue && queue[c] == Pending
  }

  function Ids(batch: seq<Item>): set<Id> {
    set it | it in batch :: it.id
  }

  lemma IdsSnoc(batch: seq<Item>, it: Item)
    ensures Ids(batch + [it]) == Ids(batch) + {it.id}
  {
    assert forall x :: x in batch + [it] <==> x in batch || x == it;
    assert it in batch + [it];
  }

  /** The entry of an answer at a position; none past its end. */
  function At(answer: seq<Option<Vec>>, i: nat): Option<Vec> {
    if i < |answer| then answer[i] else None
  }

  /** The n-th call, for one text alone, gets an answer with an entry. */
  predicate Answers(embed: Embedder, n: nat, text: Text) {
    embed(n, [text]).Some? && embed(n, [text]).value != []
  }

  /** What the n-th call gives for one text alone. */
  function Alone(embed: Embedder, n: nat, text: Text): Option<Vec> {
    if Answers(embed, n, text) then embed(n, [text]).value[0] else None
  }

  /** What a pass obtains for each text: the batch answer by position, or, when the batch fails, what
      each text gives alone in the calls that follow. */
  function Obtained(embed: Embedder, n: nat, texts: seq<Text>): (r: seq<Option<Vec>>)
    ensures |r| == |texts|
  {
    var whole := embed(n, texts);
    if whole.Some? then seq(|texts|, i requires 0 <= i < |texts| => At(whole.value, i))
    else seq(|texts|, i requires 0 <= i < |texts| => Alone(embed, n + 1 + i, texts[i]))
  }

  ghost predicate AnySome(vecs: seq<Option<Vec>>) {
    exists i :: 0 <= i < |vecs| && vecs[i].Some?
  }

  /** Some text of these, each called alone from the n-th call on, is answered with an entry. */
  ghost predicate AnyAnswers(embed: Embedder, n: nat, texts: seq<Text>) {
    exists i :: 0 <= i < |texts| && Answers(embed, n + i, texts[i])
  }

  /** A pass makes its failures final: the batch fails, and some single text is answered with an entry,
      be it a missing one. */
  ghost predicate Finals(embed: Embedder, n: nat, texts: seq<Text>) {
    embed(n, texts).None? && AnyAnswers(embed, n + 1, texts)
  }

  /** An answer to some texts holds a vector for one of them. */
  ghost predicate SomeVector(embed: Embedder) {
    forall n, texts :: texts != [] && embed(n, texts).Some? ==> AnySome(Obtained(embed, n, texts))
  }

  /** A record of the chunk with a vector that is not empty. */
  predicate Embedded(emb: map<Id, Rec>, c: Id) {
    c in emb && emb[c].vec != []
  }

  /** One of the calls from the first to before the last was given the text at some position, and answered
      it with the vector at the same position. */
  ghost predicate Given(embed: Embedder, first: nat, last: nat, text: Text, v: Vec) {
    exists n, texts, i :: first <= n < last && AnsweredWith(embed, n, texts, i, text, v)
  }

  ghost predicate AnsweredWith(embed: Embedder, n: nat, texts: seq<Text>, i: nat, text: Text, v: Vec) {
    && i < |texts| && texts[i] == text
    && embed(n, texts).Some? && i < |embed(n, texts).value| && embed(n, texts).value[i] == Some(v)
  }

  function Texts(batch: seq<Item>, prefix: Text -> Text): (ts: seq<Text>)
    ensures |ts| == |batch|
  {
    seq(|batch|, i requires 0 <= i < |batch| => prefix(batch[i].text))
  }

  // ----- The breaker during one drain -----

  /** All clock readings of the drain lie within the reset time of each other. */
  ghost predicate NoJump(c: Config, clock: nat -> int) {
    forall i, j :: clock(i) - clock(j) < c.resetAfter
  }

  /** Opened during this drain, so it stays open for the rest of it. */
  ghost predicate Shut(c: Config, b: Snapshot, clock: nat -> int) {
    b.phase == Open && forall i :: clock(i) - b.lastFail < c.resetAfter
  }

  /** How many more failed batches the breaker admits. */
  ghost function FailuresLeft(c: Config, b: Snapshot, clock: nat -> int): nat {
    if b.phase == Closed then (if b.fails < c.maxFails then c.maxFails - b.fails else 1)
    else if Shut(c, b, clock) then 0 else 1
  }

  lemma FailureUsesOne(c: Config, b: Snapshot, clock: nat -> int, i: nat, j: nat)
    requires c.Valid() && NoJump(c, clock)
    requires AfterAllow(c, b, clock(i)).1
    ensures var next := AfterFail(c, AfterAllow(c, b, clock(i)).0, clock(j));
            FailuresLeft(c, next, clock) < FailuresLeft(c, b, clock)
  {
  }

  class Processor {
    const embed: Embedder
    const model: string
    const prefix: Text -> Text
    const br: Breaker
    var chunks: map<Id, Text>
    var emb: map<Id, Rec>
    var queue: map<Id, Status>
    var vec: map<Id, Vec>
    var calls: nat
    var ticks: nat

    constructor (embed: Embedder, model: string, prefix: Text -> Text,
                 chunks: map<Id, Text>, emb: map<Id, Rec>, queue: map<Id, Status>)
      ensures this.embed == embed && this.model == model && this.prefix == prefix
      ensures this.chunks == chunks && this.emb == emb && this.queue == queue
      ensures fresh(br) && br.View() == FRESH && br.config == Config(5, 30)
    {
      this.embed, this.model, this.prefix := embed, model, prefix;
      this.chunks, this.emb, this.queue, this.vec := chunks, emb, queue, map[];
      this.calls, this.ticks := 0, 0;
      br := new Breaker();
    }

    /** Drains the queue batch by batch, until nothing is pending or the breaker refuses. It ends because
        every pass shortens the pending queue or uses up one of the breaker's failures. */
    method ProcessBatch(clock: nat -> int) returns (drained: bool)
      requires SomeVector(embed) && br.config.Valid() && NoJump(br.config, clock)
      modifies this`emb, this`vec, this`queue, this`calls, this`ticks, br
      ensures forall c :: Advanced(model, chunks, old(emb), old(queue), emb, vec, queue, c)
      ensures forall c :: Sourced(embed, old(calls), calls, prefix, chunks, old(emb), old(vec), emb, vec, c)
      ensures drained ==> PendingIn(queue) == {}
      ensures !drained ==> br.View().phase != Closed
    {
      while true
        invariant forall c :: Advanced(model, chunks, old(emb), old(queue), emb, vec, queue, c)
        invariant calls >= old(calls)
        invariant forall c :: Sourced(embed, old(calls), calls, prefix, chunks, old(emb), old(vec), emb, vec, c)
        decreases PendingIn(queue), FailuresLeft(br.config, br.View(), clock)
      {
        ghost var queue0, vec0, emb0 := queue, vec, emb;
        var batch := CollectBatch();
        CollectAdvances(model, chunks, old(emb), old(queue), emb, vec0, queue0, vec, queue);
        CollectSourced(embed, old(calls), calls, prefix, chunks, old(emb), old(vec), emb, vec0, queue0, vec, queue);
        if |batch| == 0 {
          return true;
        }
        ghost var queue1, vec1 := queue, vec;
        ghost var b, n, tick := br.View(), calls, ticks;
        var admitted, vecs := EmbedPass(batch, clock);
        if !admitted {
          return false;
        }
        ghost var final := Finals(embed, n, Texts(batch, prefix));
        PassAdvances(model, chunks, old(emb), old(queue), batch, vecs, final, emb0, vec1, queue1, emb, vec, queue);
        PassSourced(model, embed, old(calls), n, calls, prefix, chunks, old(emb), old(vec), batch,
                    emb0, vec1, queue1, emb, vec, queue);
        PassProgress(model, batch, vecs, final, emb0, vec1, queue1, emb, vec, queue);
        if !AnySome(vecs) && !final {
          FailureUsesOne(br.config, b, clock, tick, tick + 1);
        }
      }
    }

    /** Collects a batch from the pending records: a record without its chunk goes, a chunk that already
        has an embedding that is not empty gets its vector and leaves the queue, and the others are
        collected. */
    method CollectBatch() returns (batch: seq<Item>)
      modifies this`queue, this`vec
      ensures DistinctItems(batch) && |batch| <= 32
      ensures forall i :: 0 <= i < |batch| ==> Collectable(chunks, emb, queue, batch[i])
      ensures Collected(chunks, emb, old(queue), old(vec), queue, vec)
      ensures |batch| < 32 ==> PendingIn(queue) == Ids(batch)
    {
      batch := [];
      var todo := PendingIn(queue);
      while todo != {} && |batch| < MaxBatch
        invariant |batch| <= MaxBatch
        invariant Collecting(chunks, emb, old(queue), old(vec), queue, vec, todo, batch)
        decreases |todo|
      {
        var c :| c in todo;
        batch := VisitRecord(c, batch, todo, old(queue), old(vec));
        todo := todo - {c};
      }
    }

    /** One record of the scan. */
    method VisitRecord(c: Id, batch: seq<Item>, ghost todo: set<Id>, ghost queue0: map<Id, Status>,
                       ghost vec0: map<Id, Vec>)
      returns (more: seq<Item>)
      requires c in todo && Collecting(chunks, emb, queue0, vec0, queue, vec, todo, batch)
      modifies this`queue, this`vec
      ensures |more| <= |batch| + 1
      ensures Collecting(chunks, emb, queue0, vec0, queue, vec, todo - {c}, more)
    {
      more := batch;
      if c in chunks && !Embedded(emb, c) {
        CollectedIn(chunks, emb, queue0, vec0, queue, vec, todo, batch, c);
        more := batch + [Item(c, chunks[c])];
      } else {
        CollectedOut(chunks, emb, queue0, vec0, queue, vec, todo, batch, c,
                     if c in chunks then vec[c := emb[c].vec] else vec);
        if c in chunks {
          vec := vec[c := emb[c].vec];
        }
        queue := queue - {c};
      }
    }

    /** Re-embeds each text alone. Failures are final only when some text of the batch is answered. */
    method EmbedOneByOne(texts: seq<Text>, batch: seq<Item>) returns (vecs: seq<Option<Vec>>)
      requires |texts| == |batch| && DistinctItems(batch)
      modifies this`queue, this`calls
      ensures calls == old(calls) + |texts|
      ensures vecs == seq(|texts|, i requires 0 <= i < |texts| => Alone(embed, old(calls) + i, texts[i]))
      ensures queue == AfterFailures(old(queue), batch, vecs, AnyAnswers(embed, old(calls), texts))
    {
      vecs := [];
      var succeeded := 0;
      ghost var first := calls;
      for i := 0 to |texts|
        invariant |vecs| == i && calls == first + i && queue == old(queue)
        invariant forall j :: 0 <= j < i ==> vecs[j] == Alone(embed, first + j, texts[j])
        invariant succeeded > 0 <==> exists j :: 0 <= j < i && Answers(embed, first + j, texts[j])
      {
        var answered, v := EmbedOne(texts[i]);
        vecs := vecs + [v];
        succeeded := succeeded + if answered then 1 else 0;
      }
      if succeeded > 0 {
        MarkFinal(batch, vecs);
      }
    }

    method EmbedOne(text: Text) returns (answered: bool, v: Option<Vec>)
      modifies this`calls
      ensures calls == old(calls) + 1
      ensures answered == Answers(embed, old(calls), text) && v == Alone(embed, old(calls), text)
    {
      var res := embed(calls, [text]);
      calls := calls + 1;
      answered := res.Some? && |res.value| > 0;
      v := if answered then res.value[0] else None;
    }

    /** Marks every item without a vector as failed for good. */
    method MarkFinal(batch: seq<Item>, vecs: seq<Option<Vec>>)
      requires |vecs| == |batch|
      modifies this`queue
      ensures queue == MarkFailed(old(queue), batch, vecs)
    {
      for i := 0 to |batch|
        invariant queue == MarkFailed(old(queue), batch[..i], vecs[..i])
      {
        assert batch[..i + 1][..i] == batch[..i] && vecs[..i + 1][..i] == vecs[..i];
        if vecs[i].None? {
          queue := queue[batch[i].id := Status.Failed];
        }
      }
      assert batch[..|batch|] == batch && vecs[..|vecs|] == vecs;
    }

    /** One pass over a collected batch, if the breaker admits it. */
    method EmbedPass(batch: seq<Item>, clock: nat -> int) returns (admitted: bool, ghost vecs: seq<Option<Vec>>)
      requires batch != [] && DistinctItems(batch)
      modifies this`emb, this`vec, this`queue, this`calls, this`ticks, br
      ensures vecs == Obtained(embed, old(calls), Texts(batch, prefix))
      ensures ticks >= old(ticks)
      ensures calls == old(calls) + (if !admitted then 0 else if embed(old(calls), Texts(batch, prefix)).Some? then 1
                                     else 1 + |batch|)
      ensures admitted == AfterAllow(br.config, old(br.View()), clock(old(ticks))).1
      ensures !admitted ==> emb == old(emb) && vec == old(vec) && queue == old(queue) && br.View() == old(br.View())
      ensures admitted ==>
                var whole := embed(old(calls), Texts(batch, prefix)).Some?;
                && Passed(model, embed, old(calls), batch, prefix, old(emb), old(vec), old(queue), emb, vec, queue)
                && br.View() == (var b := AfterAllow(br.config, old(br.View()), clock(old(ticks))).0;
                                 if whole then AfterOk(b) else AfterFail(br.config, b, clock(old(ticks) + 1)))
    {
      var texts := Texts(batch, prefix);
      vecs := Obtained(embed, calls, texts);
      admitted := br.Allow(clock(ticks));
      ticks := ticks + 1;
      if !admitted {
        return;
      }
      var answer := embed(calls, texts);
      calls := calls + 1;
      var found: seq<Option<Vec>>;
      if answer.None? {
        br.Fail(clock(ticks));
        ticks := ticks + 1;
        found := EmbedOneByOne(texts, batch);
      } else {
        br.Ok();
        found := seq(|texts|, i requires 0 <= i < |texts| => At(answer.value, i));
      }
      assert found == vecs;
      Scatter(batch, found);
    }

    /** Writes what was obtained: record, then vector, then the queue record goes. */
    method Scatter(batch: seq<Item>, vecs: seq<Option<Vec>>)
      requires |vecs| == |batch| && DistinctItems(batch)
      modifies this`emb, this`vec, this`queue
      ensures Scattered(model, batch, vecs, |batch|, old(emb), old(vec), old(queue), emb, vec, queue)
    {
      for i := 0 to |batch|
        invariant Scattered(model, batch, vecs, i, old(emb), old(vec), old(queue), emb, vec, queue)
      {
        ScatterStep(model, batch, vecs, i, old(emb), old(vec), old(queue), emb, vec, queue);
        if vecs[i].Some? {
          emb := emb[batch[i].id := Rec(model, vecs[i].value)];
          vec := vec[batch[i].id := vecs[i].value];
          queue := queue - {batch[i].id};
        }
      }
    }
  }

  /** A pending chunk without an embedding. */
  ghost predicate Collectable(chunks: map<Id, Text>, emb: map<Id, Rec>, queue: map<Id, Status>, it: Item) {
    && it.id in queue && queue[it.id] == Pending
    && it.id in chunks && chunks[it.id] == it.text && !Embedded(emb, it.id)
  }

  /** Only records without a chunk, or with an embedding whose vector is now in the index, have left. */
  ghost predicate Collected(chunks: map<Id, Text>, emb: map<Id, Rec>, queue0: map<Id, Status>, vec0: map<Id, Vec>,
                            queue: map<Id, Status>, vec: map<Id, Vec>) {
    forall c ::
      if c in queue0 && c !in queue then
        queue0[c] == Pending && ((c !in chunks && SameAt(vec, vec0, c))
                                 || (c in chunks && Embedded(emb, c) && c in vec && vec[c] == emb[c].vec))
      else SameAt(queue, queue0, c) && SameAt(vec, vec0, c)
  }

  /** Partway through a scan: the pending records are those still to visit and those collected. */
  ghost predicate Collecting(chunks: map<Id, Text>, emb: map<Id, Rec>, queue0: map<Id, Status>, vec0: map<Id, Vec>,
                             queue: map<Id, Status>, vec: map<Id, Vec>, todo: set<Id>, batch: seq<Item>) {
    && DistinctItems(batch)
    && (forall i :: 0 <= i < |batch| ==> Collectable(chunks, emb, queue, batch[i]) && batch[i].id !in todo)
    && Collected(chunks, emb, queue0, vec0, queue, vec)
    && PendingIn(queue) == todo + Ids(batch)
  }

  /** What is collected has no vector yet, or an empty one; and a chunk that left without being embedded anew
      had one, which the index now holds. */
  lemma CollectedMeans(chunks: map<Id, Text>, emb: map<Id, Rec>, queue0: map<Id, Status>, vec0: map<Id, Vec>,
                       queue: map<Id, Status>, vec: map<Id, Vec>, it: Item, c: Id)
    requires Collectable(chunks, emb, queue, it) && Collected(chunks, emb, queue0, vec0, queue, vec)
    ensures it.id in chunks && it.text == chunks[it.id] && (it.id !in emb || |emb[it.id].vec| == 0)
    ensures c in queue0 && c !in queue && c in chunks ==>
              c in emb && |emb[c].vec| > 0 && c in vec && vec[c] == emb[c].vec
  {
  }

  lemma CollectedOut(chunks: map<Id, Text>, emb: map<Id, Rec>, queue0: map<Id, Status>, vec0: map<Id, Vec>,
                     queue: map<Id, Status>, vec: map<Id, Vec>, todo: set<Id>, batch: seq<Item>, c: Id,
                     vec1: map<Id, Vec>)
    requires Collecting(chunks, emb, queue0, vec0, queue, vec, todo, batch) && c in todo
    requires if c in chunks then Embedded(emb, c) && vec1 == vec[c := emb[c].vec] else vec1 == vec
    ensures Collecting(chunks, emb, queue0, vec0, queue - {c}, vec1, todo - {c}, batch)
  {
    assert c in PendingIn(queue) && c !in Ids(batch);
    assert PendingIn(queue - {c}) == PendingIn(queue) - {c};
  }

  lemma CollectedIn(chunks: map<Id, Text>, emb: map<Id, Rec>, queue0: map<Id, Status>, vec0: map<Id, Vec>,
                    queue: map<Id, Status>, vec: map<Id, Vec>, todo: set<Id>, batch: seq<Item>, c: Id)
    requires Collecting(chunks, emb, queue0, vec0, queue, vec, todo, batch) && c in todo
    requires c in chunks && !Embedded(emb, c)
    ensures Collecting(chunks, emb, queue0, vec0, queue, vec, todo - {c}, batch + [Item(c, chunks[c])])
  {
    IdsSnoc(batch, Item(c, chunks[c]));
    assert c in PendingIn(queue);
  }

  /** The first n items that obtained a vector have their record, their vector and no queue record; every
      other id is as it was. */
  ghost predicate Scattered(model: string, batch: seq<Item>, vecs: seq<Option<Vec>>, n: nat,
                            emb0: map<Id, Rec>, vec0: map<Id, Vec>, queue0: map<Id, Status>,
                            emb: map<Id, Rec>, vec: map<Id, Vec>, queue: map<Id, Status>)
    requires n <= |batch| == |vecs|
  {
    && (forall i :: 0 <= i < n && vecs[i].Some? ==> Landed(model, batch[i].id, vecs[i].value, emb, vec, queue))
    && (forall c :: !Hit(batch, vecs, n, c) ==> Kept(c, emb0, vec0, queue0, emb, vec, queue))
  }

  ghost predicate Landed(model: string, id: Id, v: Vec, emb: map<Id, Rec>, vec: map<Id, Vec>, queue: map<Id, Status>) {
    id in emb && emb[id] == Rec(model, v) && id in vec && vec[id] == v && id !in queue
  }

  ghost predicate Kept(c: Id, emb0: map<Id, Rec>, vec0: map<Id, Vec>, queue0: map<Id, Status>,
                       emb: map<Id, Rec>, vec: map<Id, Vec>, queue: map<Id, Status>) {
    SameAt(emb, emb0, c) && SameAt(vec, vec0, c) && SameAt(queue, queue0, c)
  }

  lemma HitStep(batch: seq<Item>, vecs: seq<Option<Vec>>, i: nat)
    requires i < |batch| == |vecs|
    ensures forall c :: Hit(batch, vecs, i + 1, c) <==> Hit(batch, vecs, i, c) || (vecs[i].Some? && batch[i].id == c)
  {
    forall c | Hit(batch, vecs, i, c) ensures Hit(batch, vecs, i + 1, c) {
      var j :| 0 <= j < i && vecs[j].Some? && batch[j].id == c;
    }
    assert vecs[i].Some? ==> Hit(batch, vecs, i + 1, batch[i].id);
  }

  lemma ScatterStep(model: string, batch: seq<Item>, vecs: seq<Option<Vec>>, i: nat,
                    emb0: map<Id, Rec>, vec0: map<Id, Vec>, queue0: map<Id, Status>,
                    emb: map<Id, Rec>, vec: map<Id, Vec>, queue: map<Id, Status>)
    requires i < |batch| == |vecs| && DistinctItems(batch)
    requires Scattered(model, batch, vecs, i, emb0, vec0, queue0, emb, vec, queue)
    ensures vecs[i].None? ==> Scattered(model, batch, vecs, i + 1, emb0, vec0, queue0, emb, vec, queue)
    ensures vecs[i].Some? ==>
              var id := batch[i].id;
              Scattered(model, batch, vecs, i + 1, emb0, vec0, queue0,
                        emb[id := Rec(model, vecs[i].value)], vec[id := vecs[i].value], queue - {id})
  {
    HitStep(batch, vecs, i);
    if vecs[i].Some? {
      var id, v := batch[i].id, vecs[i].value;
      var emb1, vec1, queue1 := emb[id := Rec(model, v)], vec[id := v], queue - {id};
      forall j | 0 <= j < i && vecs[j].Some? ensures Landed(model, batch[j].id, vecs[j].value, emb1, vec1, queue1) {
        assert Landed(model, batch[j].id, vecs[j].value, emb, vec, queue);
      }
      forall c | !Hit(batch, vecs, i + 1, c) ensures Kept(c, emb0, vec0, queue0, emb1, vec1, queue1) {
        assert Kept(c, emb0, vec0, queue0, emb, vec, queue);
      }
    }
  }

  ghost predicate SameAt<V>(a: map<Id, V>, b: map<Id, V>, c: Id) {
    (c in a <==> c in b) && (c in a ==> a[c] == b[c])
  }

  ghost predicate Hit(batch: seq<Item>, vecs: seq<Option<Vec>>, n: nat, c: Id)
    requires n <= |batch| == |vecs|
  {
    exists i :: 0 <= i < n && vecs[i].Some? && batch[i].id == c
  }

  function AfterFailures(queue: map<Id, Status>, batch: seq<Item>, vecs: seq<Option<Vec>>, final: bool): map<Id, Status>
    requires |batch| == |vecs|
  {
    if final then MarkFailed(queue, batch, vecs) else queue
  }

  function MarkFailed(queue: map<Id, Status>, batch: seq<Item>, vecs: seq<Option<Vec>>): map<Id, Status>
    requires |batch| == |vecs|
    decreases |batch|
  {
    if batch == [] then queue
    else
      var n := |batch| - 1;
      var q := MarkFailed(queue, batch[..n], vecs[..n]);
      if vecs[n].None? then q[batch[n].id := Status.Failed] else q
  }

  lemma {:induction false} MarkFailedAt(queue: map<Id, Status>, batch: seq<Item>, vecs: seq<Option<Vec>>, c: Id)
    requires |batch| == |vecs| && DistinctItems(batch)
    ensures forall i :: 0 <= i < |batch| && batch[i].id == c && vecs[i].None? ==>
              c in MarkFailed(queue, batch, vecs) && MarkFailed(queue, batch, vecs)[c] == Status.Failed
    ensures (forall i :: 0 <= i < |batch| && batch[i].id == c ==> vecs[i].Some?) ==>
                SameAt(MarkFailed(queue, batch, vecs), queue, c)
    decreases |batch|
  {
    if batch != [] {
      var n := |batch| - 1;
      MarkFailedAt(queue, batch[..n], vecs[..n], c);
      assert forall i :: 0 <= i < n ==> batch[..n][i] == batch[i] && vecs[..n][i] == vecs[i];
    }
  }

  /** When a batch is answered, every item gets the vector at its own position of the answer; an item whose
      entry is missing, or lies past the answer's end, is left as it was. */
  lemma AnswersLandInPlace(model: string, embed: Embedder, n: nat, batch: seq<Item>, prefix: Text -> Text,
                           answer: seq<Option<Vec>>, emb0: map<Id, Rec>, vec0: map<Id, Vec>, queue0: map<Id, Status>,
                           emb: map<Id, Rec>, vec: map<Id, Vec>, queue: map<Id, Status>, i: nat)
    requires DistinctItems(batch) && i < |batch|
    requires exists texts :: |texts| == |batch| && embed(n, texts) == Some(answer)
                             && forall j :: 0 <= j < |batch| ==> texts[j] == prefix(batch[j].text)
    requires Passed(model, embed, n, batch, prefix, emb0, vec0, queue0, emb, vec, queue)
    ensures var c := batch[i].id;
            if i < |answer| && answer[i].Some?
            then var v := answer[i].value;
                 c in emb && emb[c] == Rec(model, v) && c in vec && vec[c] == v && c !in queue
            else SameAt(emb, emb0, c) && SameAt(vec, vec0, c) && SameAt(queue, queue0, c)
  {
    var texts :| |texts| == |batch| && embed(n, texts) == Some(answer)
                 && forall j :: 0 <= j < |batch| ==> texts[j] == prefix(batch[j].text);
    assert texts == Texts(batch, prefix);
    var vecs := Obtained(embed, n, texts);
    assert vecs[i] == At(answer, i);
    if vecs[i].Some? {
      assert Landed(model, batch[i].id, vecs[i].value, emb, vec, queue);
    } else {
      NotHit(batch, vecs, i);
      assert Kept(batch[i].id, emb0, vec0, queue0, emb, vec, queue);
    }
  }

  /** One failing text does not spoil its batch: when the whole batch fails, every item whose own call
      gives a vector is embedded with it, and the others are marked failed iff some text was answered. */
  lemma FailuresAreIsolated(model: string, embed: Embedder, n: nat, batch: seq<Item>, prefix: Text -> Text,
                            emb0: map<Id, Rec>, vec0: map<Id, Vec>, queue0: map<Id, Status>,
                            emb: map<Id, Rec>, vec: map<Id, Vec>, queue: map<Id, Status>, i: nat)
    requires DistinctItems(batch) && i < |batch| && embed(n, Texts(batch, prefix)).None?
    requires Passed(model, embed, n, batch, prefix, emb0, vec0, queue0, emb, vec, queue)
    ensures var own := Alone(embed, n + 1 + i, prefix(batch[i].text)); var c := batch[i].id;
            if own.Some? then Landed(model, c, own.value, emb, vec, queue)
            else if AnyAnswers(embed, n + 1, Texts(batch, prefix))
              then c in queue && queue[c] == Status.Failed && SameAt(emb, emb0, c) && SameAt(vec, vec0, c)
              else Kept(c, emb0, vec0, queue0, emb, vec, queue)
  {
    var c, texts := batch[i].id, Texts(batch, prefix);
    var vecs, final := Obtained(embed, n, texts), Finals(embed, n, texts);
    assert vecs[i] == Alone(embed, n + 1 + i, texts[i]);
    MarkFailedAt(queue0, batch, vecs, c);
    if vecs[i].None? {
      NotHit(batch, vecs, i);
      assert Kept(c, emb0, vec0, AfterFailures(queue0, batch, vecs, final), emb, vec, queue);
    }
  }

  /** The state after an admitted pass over the batch that begins with the n-th call. */
  ghost predicate Passed(model: string, embed: Embedder, n: nat, batch: seq<Item>, prefix: Text -> Text,
                         emb0: map<Id, Rec>, vec0: map<Id, Vec>, queue0: map<Id, Status>,
                         emb: map<Id, Rec>, vec: map<Id, Vec>, queue: map<Id, Status>) {
    var texts := Texts(batch, prefix);
    var vecs := Obtained(embed, n, texts);
    Scattered(model, batch, vecs, |batch|, emb0, vec0,
              AfterFailures(queue0, batch, vecs, Finals(embed, n, texts)), emb, vec, queue)
  }

  lemma NotHit(batch: seq<Item>, vecs: seq<Option<Vec>>, i: nat)
    requires |vecs| == |batch| && DistinctItems(batch) && i < |batch| && vecs[i].None?
    ensures !Hit(batch, vecs, |batch|, batch[i].id)
  {
  }

  /** A pass shortens the pending queue iff it obtains a vector or makes its failures final; otherwise the
      pending queue is as it was. */
  lemma PassProgress(model: string, batch: seq<Item>, vecs: seq<Option<Vec>>, final: bool,
                     emb0: map<Id, Rec>, vec0: map<Id, Vec>, queue0: map<Id, Status>,
                     emb: map<Id, Rec>, vec: map<Id, Vec>, queue: map<Id, Status>)
    requires |vecs| == |batch| > 0 && DistinctItems(batch)
    requires forall i :: 0 <= i < |batch| ==> batch[i].id in queue0 && queue0[batch[i].id] == Pending
    requires Scattered(model, batch, vecs, |batch|, emb0, vec0, AfterFailures(queue0, batch, vecs, final), emb, vec,
                       queue)
    ensures PendingIn(queue) < PendingIn(queue0) <==> AnySome(vecs) || final
    ensures !AnySome(vecs) && !final ==> PendingIn(queue) == PendingIn(queue0)
  {
    forall c ensures c in PendingIn(queue) ==> c in PendingIn(queue0)
      ensures !AnySome(vecs) && !final ==> SameAt(queue, queue0, c)
    {
      PassAt(model, batch, vecs, final, emb0, vec0, queue0, emb, vec, queue, c);
    }
    if AnySome(vecs) || final {
      var i := if AnySome(vecs) then SomeAt(vecs) else 0;
      ItemSettled(model, batch, vecs, final, emb0, vec0, queue0, emb, vec, queue, i);
      assert batch[i].id in PendingIn(queue0) && batch[i].id !in PendingIn(queue);
    }
  }

  ghost function SomeAt(vecs: seq<Option<Vec>>): (i: nat)
    requires AnySome(vecs)
    ensures i < |vecs| && vecs[i].Some?
  {
    var i :| 0 <= i < |vecs| && vecs[i].Some?;
    i
  }

  /** An item that obtained a vector, or whose failure is final, is no longer pending. */
  lemma ItemSettled(model: string, batch: seq<Item>, vecs: seq<Option<Vec>>, final: bool,
                    emb0: map<Id, Rec>, vec0: map<Id, Vec>, queue0: map<Id, Status>,
                    emb: map<Id, Rec>, vec: map<Id, Vec>, queue: map<Id, Status>, i: nat)
    requires |vecs| == |batch| && DistinctItems(batch) && i < |batch| && (vecs[i].Some? || final)
    requires Scattered(model, batch, vecs, |batch|, emb0, vec0, AfterFailures(queue0, batch, vecs, final), emb, vec,
                       queue)
    ensures batch[i].id !in PendingIn(queue)
  {
    var c := batch[i].id;
    if vecs[i].Some? {
      assert Landed(model, c, vecs[i].value, emb, vec, queue);
    } else {
      NotHit(batch, vecs, i);
      MarkFailedAt(queue0, batch, vecs, c);
      assert Kept(c, emb0, vec0, AfterFailures(queue0, batch, vecs, final), emb, vec, queue);
    }
  }

  /** What a pass does to one id. */
  lemma PassAt(model: string, batch: seq<Item>, vecs: seq<Option<Vec>>, final: bool,
               emb0: map<Id, Rec>, vec0: map<Id, Vec>, queue0: map<Id, Status>,
               emb: map<Id, Rec>, vec: map<Id, Vec>, queue: map<Id, Status>, c: Id)
    requires |vecs| == |batch| && DistinctItems(batch)
    requires forall i :: 0 <= i < |batch| ==> batch[i].id in queue0 && queue0[batch[i].id] == Pending
    requires Scattered(model, batch, vecs, |batch|, emb0, vec0, AfterFailures(queue0, batch, vecs, final), emb, vec,
                       queue)
    ensures c in queue ==> c in queue0 && (queue[c] == queue0[c] || queue[c] == Status.Failed)
    ensures !AnySome(vecs) && !final ==> Kept(c, emb0, vec0, queue0, emb, vec, queue)
    ensures c in queue0 && c !in queue ==> c in emb && c in vec && vec[c] == emb[c].vec
    ensures (forall i :: 0 <= i < |batch| ==> batch[i].id != c) ==> Kept(c, emb0, vec0, queue0, emb, vec, queue)
  {
    var mid := AfterFailures(queue0, batch, vecs, final);
    MarkFailedAt(queue0, batch, vecs, c);
    MarkFailedIn(queue0, batch, vecs, c);
    if Hit(batch, vecs, |batch|, c) {
      var i :| 0 <= i < |batch| && vecs[i].Some? && batch[i].id == c;
      assert Landed(model, batch[i].id, vecs[i].value, emb, vec, queue);
    } else {
      assert Kept(c, emb0, vec0, mid, emb, vec, queue);
    }
  }

  lemma {:induction false} MarkFailedIn(queue: map<Id, Status>, batch: seq<Item>, vecs: seq<Option<Vec>>, c: Id)
    requires |batch| == |vecs|
    ensures c in queue ==> c in MarkFailed(queue, batch, vecs)
    ensures c in MarkFailed(queue, batch, vecs) ==>
              MarkFailed(queue, batch, vecs)[c] == Status.Failed
              || (c in queue && MarkFailed(queue, batch, vecs)[c] == queue[c])
    ensures c in MarkFailed(queue, batch, vecs) && c !in queue ==> exists i :: 0 <= i < |batch| && batch[i].id == c
    decreases |batch|
  {
    if batch != [] {
      var n := |batch| - 1;
      MarkFailedIn(queue, batch[..n], vecs[..n], c);
      if c in MarkFailed(queue, batch[..n], vecs[..n]) && c !in queue {
        var i :| 0 <= i < n && batch[..n][i].id == c;
        assert batch[i].id == c;
      }
    }
  }

  /** How far an id may have come: a queue record stays or is marked failed; when it leaves, the chunk is
      gone or has its record and the record's vector; no record goes, those with a vector stay as they
      are, and new ones are of the model. */
  ghost predicate Advanced(model: string, chunks: map<Id, Text>, emb0: map<Id, Rec>, queue0: map<Id, Status>,
                           emb: map<Id, Rec>, vec: map<Id, Vec>, queue: map<Id, Status>, c: Id) {
    && (c in queue ==> c in queue0 && (queue[c] == queue0[c] || queue[c] == Status.Failed))
    && (c in queue0 && c !in queue && c in chunks ==> c in emb && c in vec && vec[c] == emb[c].vec)
    && (Embedded(emb0, c) ==> SameAt(emb, emb0, c))
    && (c in emb0 ==> c in emb)
    && (c in emb && !SameAt(emb, emb0, c) ==> emb[c].model == model)
  }

  /** Whatever the drain writes for a chunk, one of its calls gave for the chunk's own prefixed text; and
      the index changes only to what the record says. */
  ghost predicate Sourced(embed: Embedder, first: nat, last: nat, prefix: Text -> Text, chunks: map<Id, Text>,
                          emb0: map<Id, Rec>, vec0: map<Id, Vec>, emb: map<Id, Rec>, vec: map<Id, Vec>, c: Id) {
    && (c in emb && !SameAt(emb, emb0, c) ==> c in chunks && Given(embed, first, last, prefix(chunks[c]), emb[c].vec))
    && (!SameAt(vec, vec0, c) ==> c in emb && c in vec && vec[c] == emb[c].vec)
  }

  lemma CollectSourced(embed: Embedder, first: nat, last: nat, prefix: Text -> Text, chunks: map<Id, Text>,
                       embS: map<Id, Rec>, vecS: map<Id, Vec>, emb: map<Id, Rec>, vec0: map<Id, Vec>,
                       queue0: map<Id, Status>, vec: map<Id, Vec>, queue: map<Id, Status>)
    requires forall c :: Sourced(embed, first, last, prefix, chunks, embS, vecS, emb, vec0, c)
    requires Collected(chunks, emb, queue0, vec0, queue, vec)
    ensures forall c :: Sourced(embed, first, last, prefix, chunks, embS, vecS, emb, vec, c)
  {
    forall c ensures Sourced(embed, first, last, prefix, chunks, embS, vecS, emb, vec, c) {
      assert Sourced(embed, first, last, prefix, chunks, embS, vecS, emb, vec0, c);
    }
  }

  lemma PassSourced(model: string, embed: Embedder, first: nat, n: nat, last: nat, prefix: Text -> Text,
                    chunks: map<Id, Text>, embS: map<Id, Rec>, vecS: map<Id, Vec>, batch: seq<Item>,
                    emb0: map<Id, Rec>, vec0: map<Id, Vec>, queue0: map<Id, Status>,
                    emb: map<Id, Rec>, vec: map<Id, Vec>, queue: map<Id, Status>)
    requires batch != [] && DistinctItems(batch) && first <= n < last
    requires embed(n, Texts(batch, prefix)).None? ==> n + |batch| < last
    requires forall i :: 0 <= i < |batch| ==> Collectable(chunks, emb0, queue0, batch[i])
    requires Passed(model, embed, n, batch, prefix, emb0, vec0, queue0, emb, vec, queue)
    requires forall c :: Sourced(embed, first, n, prefix, chunks, embS, vecS, emb0, vec0, c)
    ensures forall c :: Sourced(embed, first, last, prefix, chunks, embS, vecS, emb, vec, c)
  {
    var vecs := Obtained(embed, n, Texts(batch, prefix));
    forall c ensures Sourced(embed, first, last, prefix, chunks, embS, vecS, emb, vec, c) {
      assert Sourced(embed, first, n, prefix, chunks, embS, vecS, emb0, vec0, c);
      if Hit(batch, vecs, |batch|, c) {
        var i :| 0 <= i < |batch| && vecs[i].Some? && batch[i].id == c;
        assert Landed(model, batch[i].id, vecs[i].value, emb, vec, queue);
        assert Collectable(chunks, emb0, queue0, batch[i]);
        ObtainedIsGiven(embed, n, batch, prefix, i);
      } else {
        var mid := AfterFailures(queue0, batch, vecs, Finals(embed, n, Texts(batch, prefix)));
        assert Kept(c, emb0, vec0, mid, emb, vec, queue);
      }
    }
  }

  lemma ObtainedIsGiven(embed: Embedder, n: nat, batch: seq<Item>, prefix: Text -> Text, i: nat)
    requires i < |batch| && Obtained(embed, n, Texts(batch, prefix))[i].Some?
    ensures var texts := Texts(batch, prefix);
            Given(embed, n, n + (if embed(n, texts).Some? then 1 else 1 + |batch|), prefix(batch[i].text),
                  Obtained(embed, n, texts)[i].value)
  {
    var texts := Texts(batch, prefix);
    var v := Obtained(embed, n, texts)[i].value;
    if embed(n, texts).Some? {
      assert AnsweredWith(embed, n, texts, i, prefix(batch[i].text), v);
    } else {
      assert AnsweredWith(embed, n + 1 + i, [texts[i]], 0, prefix(batch[i].text), v);
    }
  }

  lemma CollectAdvances(model: string, chunks: map<Id, Text>, embS: map<Id, Rec>, queueS: map<Id, Status>,
                        emb: map<Id, Rec>, vec0: map<Id, Vec>, queue0: map<Id, Status>, vec: map<Id, Vec>,
                        queue: map<Id, Status>)
    requires forall c :: Advanced(model, chunks, embS, queueS, emb, vec0, queue0, c)
    requires Collected(chunks, emb, queue0, vec0, queue, vec)
    ensures forall c :: Advanced(model, chunks, embS, queueS, emb, vec, queue, c)
    ensures PendingIn(queue) <= PendingIn(queue0)
  {
    forall c ensures Advanced(model, chunks, embS, queueS, emb, vec, queue, c) {
      assert Advanced(model, chunks, embS, queueS, emb, vec0, queue0, c);
    }
  }

  lemma PassAdvances(model: string, chunks: map<Id, Text>, embS: map<Id, Rec>, queueS: map<Id, Status>,
                     batch: seq<Item>, vecs: seq<Option<Vec>>, final: bool,
                     emb0: map<Id, Rec>, vec0: map<Id, Vec>, queue0: map<Id, Status>,
                     emb: map<Id, Rec>, vec: map<Id, Vec>, queue: map<Id, Status>)
    requires |vecs| == |batch| && DistinctItems(batch)
    requires forall i :: 0 <= i < |batch| ==> Collectable(chunks, emb0, queue0, batch[i])
    requires Scattered(model, batch, vecs, |batch|, emb0, vec0, AfterFailures(queue0, batch, vecs, final), emb, vec,
                       queue)
    requires forall c :: Advanced(model, chunks, embS, queueS, emb0, vec0, queue0, c)
    ensures forall c :: Advanced(model, chunks, embS, queueS, emb, vec, queue, c)
  {
    forall c ensures Advanced(model, chunks, embS, queueS, emb, vec, queue, c) {
      assert Advanced(model, chunks, embS, queueS, emb0, vec0, queue0, c);
      PassAt(model, batch, vecs, final, emb0, vec0, queue0, emb, vec, queue, c);
      PassRecord(model, chunks, batch, vecs, final, emb0, vec0, queue0, emb, vec, queue, c);
    }
  }

  /** A pass writes records of its model only, for chunks that had none with a vector. */
  lemma PassRecord(model: string, chunks: map<Id, Text>, batch: seq<Item>, vecs: seq<Option<Vec>>, final: bool,
                   emb0: map<Id, Rec>, vec0: map<Id, Vec>, queue0: map<Id, Status>,
                   emb: map<Id, Rec>, vec: map<Id, Vec>, queue: map<Id, Status>, c: Id)
    requires |vecs| == |batch| && DistinctItems(batch)
    requires forall i :: 0 <= i < |batch| ==> Collectable(chunks, emb0, queue0, batch[i])
    requires Scattered(model, batch, vecs, |batch|, emb0, vec0, AfterFailures(queue0, batch, vecs, final), emb, vec,
                       queue)
    ensures SameAt(emb, emb0, c) || (!Embedded(emb0, c) && c in emb && emb[c].model == model)
    ensures SameAt(vec, vec0, c) || (c in emb && c in vec && vec[c] == emb[c].vec)
    ensures Embedded(emb0, c) ==> SameAt(vec, vec0, c)
  {
    if Hit(batch, vecs, |batch|, c) {
      var i :| 0 <= i < |batch| && vecs[i].Some? && batch[i].id == c;
      assert Landed(model, batch[i].id, vecs[i].value, emb, vec, queue);
      assert Collectable(chunks, emb0, queue0, batch[i]);
    } else {
      assert Kept(c, emb0, vec0, AfterFailures(queue0, batch, vecs, final), emb, vec, queue);
    }
  }

  lemma NoneMeansFailure(embed: Embedder, n: nat, texts: seq<Text>)
    requires SomeVector(embed) && texts != [] && !AnySome(Obtained(embed, n, texts))
    ensures embed(n, texts).None?
  {
  }

  /** An admitted pass changes nothing iff its batch is answered without a vector for any of its texts, or
      fails and then no single text is answered. In the first case the breaker, told of a success, admits
      the same batch again, so a drain met by such answers does not end. */
  lemma StuckIff(model: string, embed: Embedder, n: nat, batch: seq<Item>, prefix: Text -> Text,
                 emb0: map<Id, Rec>, vec0: map<Id, Vec>, queue0: map<Id, Status>,
                 emb: map<Id, Rec>, vec: map<Id, Vec>, queue: map<Id, Status>)
    requires batch != [] && DistinctItems(batch)
    requires forall i :: 0 <= i < |batch| ==> batch[i].id in queue0 && queue0[batch[i].id] == Pending
    requires Passed(model, embed, n, batch, prefix, emb0, vec0, queue0, emb, vec, queue)
    ensures var answer := embed(n, Texts(batch, prefix));
            emb == emb0 && vec == vec0 && queue == queue0 <==>
            if answer.Some? then forall i :: 0 <= i < |answer.value| && i < |batch| ==> answer.value[i].None?
            else !AnyAnswers(embed, n + 1, Texts(batch, prefix))
    ensures forall conf, b, now :: AfterAllow(conf, AfterOk(b), now).1
  {
    var texts := Texts(batch, prefix);
    var answer, vecs, final := embed(n, texts), Obtained(embed, n, texts), Finals(embed, n, texts);
    NothingObtained(embed, n, texts);
    PassProgress(model, batch, vecs, final, emb0, vec0, queue0, emb, vec, queue);
    if !AnySome(vecs) && !final {
      forall c: Id ensures SameAt(emb, emb0, c) && SameAt(vec, vec0, c) && SameAt(queue, queue0, c) {
        assert !Hit(batch, vecs, |batch|, c);
        assert Kept(c, emb0, vec0, queue0, emb, vec, queue);
      }
      SameMaps(emb, emb0);
      SameMaps(vec, vec0);
      SameMaps(queue, queue0);
    }
  }

  /** What a drain changes. */
  datatype Memory = Memory(emb: map<Id, Rec>, vec: map<Id, Vec>, queue: map<Id, Status>, breaker: Snapshot)

  /** An admitted pass over the batch, answered without a vector for any of its texts. */
  ghost predicate StuckPass(model: string, embed: Embedder, n: nat, batch: seq<Item>, prefix: Text -> Text,
                            conf: Config, now: int, s: Memory, t: Memory) {
    var texts := Texts(batch, prefix);
    && embed(n, texts).Some? && !AnySome(Obtained(embed, n, texts))
    && AfterAllow(conf, s.breaker, now).1 && t.breaker == AfterOk(AfterAllow(conf, s.breaker, now).0)
    && Passed(model, embed, n, batch, prefix, s.emb, s.vec, s.queue, t.emb, t.vec, t.queue)
  }

  ghost predicate AllPending(batch: seq<Item>, queue: map<Id, Status>) {
    forall i :: 0 <= i < |batch| ==> batch[i].id in queue && queue[batch[i].id] == Pending
  }

  lemma StuckOnce(model: string, embed: Embedder, n: nat, batch: seq<Item>, prefix: Text -> Text,
                  conf: Config, now: int, s: Memory, t: Memory)
    requires batch != [] && DistinctItems(batch) && AllPending(batch, s.queue)
    requires StuckPass(model, embed, n, batch, prefix, conf, now, s, t)
    ensures t == s.(breaker := t.breaker) && t.breaker.phase == Closed
  {
    NothingObtained(embed, n, Texts(batch, prefix));
    StuckIff(model, embed, n, batch, prefix, s.emb, s.vec, s.queue, t.emb, t.vec, t.queue);
  }

  /** Answers without vectors keep the drain where it is: after any number of such passes the batch is
      pending as at first, and the breaker, told of successes, admits it at any time. */
  lemma {:induction false} StuckForever(model: string, embed: Embedder, n: nat, batch: seq<Item>, prefix: Text -> Text,
                                        conf: Config, clock: nat -> int, run: seq<Memory>, now: int)
    requires batch != [] && DistinctItems(batch) && |run| > 1 && AllPending(batch, run[0].queue)
    requires forall i :: 0 < i < |run| ==>
               StuckPass(model, embed, n + i, batch, prefix, conf, clock(i), run[i - 1], run[i])
    ensures var last := run[|run| - 1];
            last == run[0].(breaker := last.breaker) && AfterAllow(conf, last.breaker, now).1
    decreases |run|
  {
    var k := |run| - 1;
    if k > 1 {
      StuckForever(model, embed, n, batch, prefix, conf, clock, run[..k], now);
    }
    StuckOnce(model, embed, n + k, batch, prefix, conf, clock(k), run[k - 1], run[k]);
  }

  lemma NothingObtained(embed: Embedder, n: nat, texts: seq<Text>)
    ensures var answer := embed(n, texts);
            !AnySome(Obtained(embed, n, texts)) && !Finals(embed, n, texts) <==>
            if answer.Some? then forall i :: 0 <= i < |answer.value| && i < |texts| ==> answer.value[i].None?
            else !AnyAnswers(embed, n + 1, texts)
  {
    var answer, vecs := embed(n, texts), Obtained(embed, n, texts);
    if answer.Some? {
      forall i | 0 <= i < |texts| ensures vecs[i].Some? <==> i < |answer.value| && answer.value[i].Some? {
        assert vecs[i] == At(answer.value, i);
      }
    } else {
      assert forall i :: 0 <= i < |texts| ==> vecs[i] == Alone(embed, n + 1 + i, texts[i]);
      if AnySome(vecs) {
        assert Answers(embed, n + 1 + SomeAt(vecs), texts[SomeAt(vecs)]);
      }
    }
  }

  lemma SameMaps<V>(a: map<Id, V>, b: map<Id, V>)
    requires forall c :: SameAt(a, b, c)
    ensures a == b
  {
    forall c: Id ensures c in a <==> c in b {
      assert SameAt(a, b, c);
    }
    forall c: Id | c in a ensures a[c] == b[c] {
      assert SameAt(a, b, c);
    }
  }
}
