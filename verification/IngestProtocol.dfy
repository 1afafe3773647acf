/** The crash-safe path of a chunk: ingest, embedding, copying and deletion as separate durable writes
    (internal/pipeline/pipeline.go, internal/embedproc/processor.go, internal/pipeline/reingest.go,
    internal/pipeline/delete.go), with recovery (internal/pipeline/load.go). Any two steps may
    interleave, and a crash may fall between any two; the restart may bring another embedding model. */
module IngestProtocol {
  type Id = string
  type Vec = int
  type Model = int
  type Text = int

  datatype Rec = Rec(model: Model, vec: Vec)

  datatype Status = Pending | Failed

  const MaxBatch: nat := 32

  /** A chunk's id determines its text, and a model gives each text one vector. */
  datatype World = World(text: Id -> Text, vector: (Model, Text) -> Vec) {
    function Embeds(m: Model, c: Id): Rec { Rec(m, vector(m, text(c))) }
  }

  /** Where the processor stands. While scanning, `todo` are the pending records of the snapshot not yet
      visited, and `batch` the chunks collected for embedding. */
  datatype Pc =
    | Idle
    | Scan(todo: set<Id>, batch: set<Id>)
    | Found(todo: set<Id>, batch: set<Id>, c: Id)
    | Orphan(todo: set<Id>, batch: set<Id>, c: Id)
    | Fast(todo: set<Id>, batch: set<Id>, c: Id, v: Vec, added: bool)
    | Embedding(batch: set<Id>)
    | Marking(marked: set<Id>, got: set<Id>)
    | Scatter(got: set<Id>)
    | Writing(got: set<Id>, c: Id, added: bool)

  /** The first three are durable. The current model, the vectors, the processor's place, the deletions
      under way (each with whether it has removed the embedding) and the records captured for a re-ingest
      are in memory. The last three only record history: the chunks stored and queued since their last
      deletion, those acknowledged, and those queued since the current scan began. */
  datatype State = State(
    chunks: set<Id>, emb: map<Id, Rec>, queue: map<Id, Status>,
    model: Model, vec: map<Id, Vec>, pc: Pc, deleting: map<Id, bool>, captured: map<Id, Rec>,
    durable: set<Id>, acked: set<Id>, recent: set<Id>)

  datatype Step =
    | WriteChunk(c: Id)
    | WriteQueue(c: Id)
    | Ack(cs: set<Id>)
    | Capture(c: Id)
    | Copy(o: Id, c: Id)
    | DelChunk(c: Id)
    | DelEmb(c: Id)
    | DelVec(c: Id)
    | StartScan
    | Visit(c: Id)
    | ReadEmb
    | DropOrphan
    | FastAdd
    | FastDequeue
    | EndScan
    | Refuse
    | Embed(got: set<Id>, marked: set<Id>)
    | Mark(c: Id)
    | Put(c: Id)
    | AddVec
    | Dequeue
    | Restart(model: Model)

  function Start(m: Model): State {
    State({}, map[], map[], m, map[], Idle, map[], map[], {}, {}, {})
  }

  // ----- Ingest -----

  /** Stores a chunk (pipeline.go:496-498). */
  function AfterWriteChunk(s: State, c: Id): State {
    s.(chunks := s.chunks + {c})
  }

  /** Queues it for embedding, before the acknowledgement (pipeline.go:502). */
  function AfterWriteQueue(s: State, c: Id): State {
    s.(queue := s.queue[c := Pending],
       durable := if c in s.chunks then s.durable + {c} else s.durable,
       recent := s.recent + {c})
  }

  function AfterAck(s: State, cs: set<Id>): State {
    s.(acked := s.acked + cs)
  }

  // ----- Deletion (delete.go:28-58) and re-ingest (reingest.go:28-96) -----

  /** Keeps the record of an old chunk before its deletion. */
  function AfterCapture(s: State, c: Id): State
    requires c in s.emb
  {
    s.(captured := s.captured[c := s.emb[c]])
  }

  /** A kept record may go to a new chunk with the same text, if it is of the current model. */
  predicate MayCopy(w: World, s: State, o: Id, c: Id) {
    o in s.captured && s.captured[o].model == s.model && w.text(o) == w.text(c)
  }

  function AfterCopy(s: State, o: Id, c: Id): State
    requires o in s.captured
  {
    s.(emb := s.emb[c := s.captured[o]])
  }

  function AfterDelChunk(s: State, c: Id): State {
    s.(chunks := s.chunks - {c}, deleting := s.deleting[c := false],
       durable := s.durable - {c}, acked := s.acked - {c})
  }

  function AfterDelEmb(s: State, c: Id): State {
    s.(emb := s.emb - {c}, deleting := s.deleting[c := true])
  }

  function AfterDelVec(s: State, c: Id): State {
    s.(vec := s.vec - {c}, deleting := s.deleting - {c})
  }

  // ----- The processor (processor.go:211-334) -----

  function PendingIds(s: State): set<Id> {
    set c | c in s.queue && s.queue[c] == Pending
  }

  /** Between two passes: nothing left to write of the batch before. */
  predicate AtLoopHead(pc: Pc) {
    pc == Idle || pc == Scatter({}) || pc == Marking({}, {})
  }

  function AfterStartScan(s: State): State {
    s.(pc := Scan(PendingIds(s), {}), recent := {})
  }

  function AfterVisit(s: State, todo: set<Id>, batch: set<Id>, c: Id): State {
    s.(pc := if c in s.chunks then Found(todo - {c}, batch, c) else Orphan(todo - {c}, batch, c))
  }

  /** A record of any model is taken for the chunk's embedding (processor.go:242-250). */
  function AfterReadEmb(s: State, todo: set<Id>, batch: set<Id>, c: Id): State {
    s.(pc := if c in s.emb then Fast(todo, batch, c, s.emb[c].vec, false) else Scan(todo, batch + {c}))
  }

  function AfterDropOrphan(s: State, todo: set<Id>, batch: set<Id>, c: Id): State {
    s.(queue := s.queue - {c}, pc := Scan(todo, batch))
  }

  function AfterFastAdd(s: State, todo: set<Id>, batch: set<Id>, c: Id, v: Vec): State {
    s.(vec := s.vec[c := v], pc := Fast(todo, batch, c, v, true))
  }

  /** The end of a scan: an empty batch ends the drain. */
  function AfterEndScan(s: State, batch: set<Id>): State {
    s.(pc := if batch == {} then Idle else Embedding(batch))
  }

  function AfterMark(s: State, marked: set<Id>, got: set<Id>, c: Id): State {
    s.(queue := s.queue[c := Failed], pc := if marked == {c} then Scatter(got) else Marking(marked - {c}, got))
  }

  function AfterPut(w: World, s: State, got: set<Id>, c: Id): State {
    s.(emb := s.emb[c := w.Embeds(s.model, c)], pc := Writing(got - {c}, c, false))
  }

  function AfterAddVec(w: World, s: State, got: set<Id>, c: Id): State {
    s.(vec := s.vec[c := w.vector(s.model, w.text(c))], pc := Writing(got, c, true))
  }

  function AfterDequeue(s: State, got: set<Id>, c: Id): State {
    s.(queue := s.queue - {c}, pc := Scatter(got))
  }

  function Image(emb: map<Id, Rec>): map<Id, Vec> {
    map c | c in emb :: emb[c].vec
  }

  /** Memory is lost, and the vector index is rebuilt from the records, whatever their model
      (load.go:48-65). */
  function AfterRestart(s: State, m: Model): State {
    s.(model := m, vec := Image(s.emb), pc := Idle, deleting := map[], captured := map[], recent := {})
  }

  predicate IsIngest(step: Step) {
    step.WriteChunk? || step.WriteQueue? || step.Ack? || step.Capture? || step.Copy?
  }

  predicate IsDelete(step: Step) {
    step.DelChunk? || step.DelEmb? || step.DelVec? || step.Restart?
  }

  predicate IsScan(step: Step) {
    step.StartScan? || step.Visit? || step.ReadEmb? || step.DropOrphan? || step.FastAdd? || step.FastDequeue?
  }

  function ApplyIngest(w: World, s: State, step: Step): State
    requires IsIngest(step)
  {
    match step
    case WriteChunk(c) => AfterWriteChunk(s, c)
    case WriteQueue(c) => AfterWriteQueue(s, c)
    case Ack(cs) => if cs <= s.durable then AfterAck(s, cs) else s
    case Capture(c) => if c in s.chunks && c in s.emb then AfterCapture(s, c) else s
    case Copy(o, c) => if MayCopy(w, s, o, c) then AfterCopy(s, o, c) else s
  }

  function ApplyDelete(s: State, step: Step): State
    requires IsDelete(step)
  {
    match step
    case DelChunk(c) => if c in s.chunks && c !in s.deleting then AfterDelChunk(s, c) else s
    case DelEmb(c) => if c in s.deleting && !s.deleting[c] then AfterDelEmb(s, c) else s
    case DelVec(c) => if c in s.deleting && s.deleting[c] then AfterDelVec(s, c) else s
    case Restart(m) => AfterRestart(s, m)
  }

  function ApplyScan(s: State, step: Step): State
    requires IsScan(step)
  {
    match step
    case StartScan => if AtLoopHead(s.pc) then AfterStartScan(s) else s
    case Visit(c) =>
      if s.pc.Scan? && c in s.pc.todo && |s.pc.batch| < MaxBatch then AfterVisit(s, s.pc.todo, s.pc.batch, c) else s
    case ReadEmb => if s.pc.Found? then AfterReadEmb(s, s.pc.todo, s.pc.batch, s.pc.c) else s
    case DropOrphan => if s.pc.Orphan? then AfterDropOrphan(s, s.pc.todo, s.pc.batch, s.pc.c) else s
    case FastAdd =>
      if s.pc.Fast? && !s.pc.added then AfterFastAdd(s, s.pc.todo, s.pc.batch, s.pc.c, s.pc.v) else s
    case FastDequeue =>
      if s.pc.Fast? && s.pc.added then AfterDropOrphan(s, s.pc.todo, s.pc.batch, s.pc.c) else s
  }

  function ApplyBatch(w: World, s: State, step: Step): State
    requires !IsIngest(step) && !IsDelete(step) && !IsScan(step)
  {
    match step
    case EndScan =>
      if s.pc.Scan? && (s.pc.todo == {} || |s.pc.batch| >= MaxBatch) then AfterEndScan(s, s.pc.batch) else s
    case Refuse => if s.pc.Embedding? then s.(pc := Idle) else s
    case Embed(got, marked) =>
      if s.pc.Embedding? && got + marked <= s.pc.batch && got !! marked then
        s.(pc := Marking(marked, got))
      else s
    case Mark(c) => if s.pc.Marking? && c in s.pc.marked then AfterMark(s, s.pc.marked, s.pc.got, c) else s
    case Put(c) => if MayPut(s.pc, c) then AfterPut(w, s, s.pc.got, c) else s
    case AddVec => if s.pc.Writing? && !s.pc.added then AfterAddVec(w, s, s.pc.got, s.pc.c) else s
    case Dequeue => if s.pc.Writing? && s.pc.added then AfterDequeue(s, s.pc.got, s.pc.c) else s
  }

  predicate MayPut(pc: Pc, c: Id) {
    ((pc.Marking? && pc.marked == {}) || pc.Scatter?) && c in pc.got
  }

  /** A step that is not possible changes nothing. */
  function Apply(w: World, s: State, step: Step): State {
    if IsIngest(step) then ApplyIngest(w, s, step)
    else if IsDelete(step) then ApplyDelete(s, step)
    else if IsScan(step) then ApplyScan(s, step)
    else ApplyBatch(w, s, step)
  }

  function Run(w: World, s: State, steps: seq<Step>): State
    decreases steps
  {
    if steps == [] then s else Run(w, Apply(w, s, steps[0]), steps[1..])
  }

  lemma {:induction false} RunAppend(w: World, s: State, a: seq<Step>, b: seq<Step>)
    ensures Run(w, s, a + b) == Run(w, Run(w, s, a), b)
    decreases a
  {
    if a == [] {
      assert a + b == b;
    } else {
      assert (a + b)[1..] == a[1..] + b;
      RunAppend(w, Apply(w, s, a[0]), a[1..], b);
    }
  }

  lemma RunOne(w: World, s: State, x: Step)
    ensures Run(w, s, [x]) == Apply(w, s, x)
  {
    assert [x][1..] == [];
  }

  // ----- Records are genuine -----

  ghost predicate GenuineIn(w: World, recs: map<Id, Rec>) {
    forall c :: c in recs ==> recs[c] == w.Embeds(recs[c].model, c)
  }

  lemma GenuineOutside(w: World, s: State, step: Step)
    requires GenuineIn(w, s.emb) && GenuineIn(w, s.captured) && (IsIngest(step) || IsDelete(step))
    ensures GenuineIn(w, Apply(w, s, step).emb) && GenuineIn(w, Apply(w, s, step).captured)
  {
  }

  lemma ScanRecords(s: State, step: Step)
    requires IsScan(step)
    ensures ApplyScan(s, step).emb == s.emb && ApplyScan(s, step).captured == s.captured
  {
  }

  lemma BatchRecords(w: World, s: State, step: Step)
    requires !IsIngest(step) && !IsDelete(step) && !IsScan(step)
    ensures var t := ApplyBatch(w, s, step);
            && t.captured == s.captured
            && t.emb == if step.Put? && MayPut(s.pc, step.c) then s.emb[step.c := w.Embeds(s.model, step.c)] else s.emb
  {
  }

  lemma GenuineProcess(w: World, s: State, step: Step)
    requires GenuineIn(w, s.emb) && !IsIngest(step) && !IsDelete(step)
    ensures GenuineIn(w, Apply(w, s, step).emb) && Apply(w, s, step).captured == s.captured
  {
    if IsScan(step) {
      ScanRecords(s, step);
    } else {
      BatchRecords(w, s, step);
    }
  }

  lemma GenuineStep(w: World, s: State, step: Step)
    requires GenuineIn(w, s.emb) && GenuineIn(w, s.captured)
    ensures GenuineIn(w, Apply(w, s, step).emb) && GenuineIn(w, Apply(w, s, step).captured)
  {
    if IsIngest(step) || IsDelete(step) {
      GenuineOutside(w, s, step);
    } else {
      GenuineProcess(w, s, step);
    }
  }

  lemma {:induction false} GenuineRun(w: World, s: State, steps: seq<Step>)
    requires GenuineIn(w, s.emb) && GenuineIn(w, s.captured)
    ensures GenuineIn(w, Run(w, s, steps).emb) && GenuineIn(w, Run(w, s, steps).captured)
    decreases steps
  {
    if steps != [] {
      GenuineStep(w, s, steps[0]);
      GenuineRun(w, Apply(w, s, steps[0]), steps[1..]);
    }
  }

  // ----- No loss: which queueings are safe -----

  /** The chunk whose queue record the processor has already decided to remove. */
  function Window(pc: Pc): set<Id> {
    match pc
    case Orphan(_, _, c) => {c}
    case Fast(_, _, c, _, _) => {c}
    case Writing(_, c, _) => {c}
    case _ => {}
  }

  /** Its deletion has removed the chunk and not yet the embedding. */
  predicate HalfDeleted(s: State, c: Id) {
    c in s.deleting && !s.deleting[c]
  }

  /** The processor is about to mark it failed. */
  predicate BeingMarked(s: State, c: Id) {
    s.pc.Marking? && c in s.pc.marked
  }

  /** Queueing a stored chunk again is safe unless its record is being removed while it has no embedding,
      or its embedding is about to be deleted and its record can still leave the queue before that. */
  predicate SafeQueue(s: State, c: Id) {
    c in s.chunks ==> (c in Window(s.pc) ==> c in s.emb) && (HalfDeleted(s, c) ==> BeingMarked(s, c))
  }

  predicate Safe(s: State, step: Step) {
    step.WriteQueue? ==> SafeQueue(s, step.c)
  }

  predicate SafeRun(w: World, s: State, steps: seq<Step>)
    decreases steps
  {
    steps == [] || (Safe(s, steps[0]) && SafeRun(w, Apply(w, s, steps[0]), steps[1..]))
  }

  lemma {:induction false} SafeAppend(w: World, s: State, a: seq<Step>, b: seq<Step>)
    ensures SafeRun(w, s, a + b) <==> SafeRun(w, s, a) && SafeRun(w, Run(w, s, a), b)
    decreases a
  {
    if a == [] {
      assert a + b == b;
    } else {
      assert (a + b)[1..] == a[1..] + b;
      SafeAppend(w, Apply(w, s, a[0]), a[1..], b);
    }
  }

  /** Everything the processor may still take off the queue in this pass. */
  function Targets(pc: Pc): set<Id> {
    match pc
    case Idle => {}
    case Scan(todo, batch) => todo + batch
    case Found(todo, batch, c) => todo + batch + {c}
    case Orphan(todo, batch, c) => todo + batch + {c}
    case Fast(todo, batch, c, _, _) => todo + batch + {c}
    case Embedding(batch) => batch
    case Marking(_, got) => got
    case Scatter(got) => got
    case Writing(got, c, _) => got + {c}
  }

  ghost predicate Recorded(s: State, c: Id) {
    c in s.durable ==> c in s.chunks && (c in s.emb || c in s.queue)
  }

  ghost predicate WindowCovered(s: State, c: Id) {
    c in s.durable && c in Window(s.pc) ==> c in s.emb
  }

  /** A chunk stored again while half deleted keeps its queue record. */
  ghost predicate HalfCovered(s: State, c: Id) {
    c in s.durable && HalfDeleted(s, c) ==>
      c in s.queue && (BeingMarked(s, c) || (s.queue[c] == Failed && c !in Targets(s.pc)))
  }

  ghost predicate Covered(s: State, c: Id) {
    && Recorded(s, c) && WindowCovered(s, c) && HalfCovered(s, c)
    && (s.pc.Marking? ==> c !in s.pc.marked || c !in s.pc.got)
    && (c in s.acked ==> c in s.durable)
  }

  ghost predicate NoLoss(s: State) {
    forall c :: Covered(s, c)
  }

  lemma CoveredIngest(w: World, s: State, step: Step, x: Id)
    requires Covered(s, x) && Safe(s, step) && IsIngest(step)
    ensures Covered(ApplyIngest(w, s, step), x)
  {
  }

  lemma CoveredDelete(s: State, step: Step, x: Id)
    requires Covered(s, x) && IsDelete(step)
    ensures Covered(ApplyDelete(s, step), x)
  {
  }

  lemma CoveredScan(s: State, step: Step, x: Id)
    requires Covered(s, x) && IsScan(step)
    ensures Covered(ApplyScan(s, step), x)
  {
  }

  lemma CoveredBatch(w: World, s: State, step: Step, x: Id)
    requires Covered(s, x) && !IsIngest(step) && !IsDelete(step) && !IsScan(step)
    ensures Covered(ApplyBatch(w, s, step), x)
  {
  }

  lemma NoLossStep(w: World, s: State, step: Step)
    requires NoLoss(s) && Safe(s, step)
    ensures NoLoss(Apply(w, s, step))
  {
    forall x ensures Covered(Apply(w, s, step), x) {
      assert Covered(s, x);
      if IsIngest(step) {
        CoveredIngest(w, s, step, x);
      } else if IsDelete(step) {
        CoveredDelete(s, step, x);
      } else if IsScan(step) {
        CoveredScan(s, step, x);
      } else {
        CoveredBatch(w, s, step, x);
      }
    }
  }

  lemma {:induction false} NoLossRun(w: World, s: State, steps: seq<Step>)
    requires NoLoss(s) && SafeRun(w, s, steps)
    ensures NoLoss(Run(w, s, steps))
    decreases steps
  {
    if steps != [] {
      NoLossStep(w, s, steps[0]);
      NoLossRun(w, Apply(w, s, steps[0]), steps[1..]);
    }
  }

  /** No acknowledged work is lost: at any point, with any crashes, an acknowledged chunk that was not
      deleted since is stored, and has an embedding or a queue record. */
  lemma NoAckedWorkLost(w: World, m: Model, steps: seq<Step>, c: Id)
    requires SafeRun(w, Start(m), steps)
    ensures var s := Run(w, Start(m), steps); c in s.acked ==> c in s.chunks && (c in s.emb || c in s.queue)
  {
    NoLossRun(w, Start(m), steps);
    assert Covered(Run(w, Start(m), steps), c);
  }

  // ----- Exactly which queueings can lose work -----

  predicate Lost(s: State, c: Id) {
    c in s.acked && c !in s.emb && c !in s.queue
  }

  /** Some continuation, safe in every step, loses the chunk. */
  ghost predicate CanLose(w: World, s: State, c: Id) {
    exists steps :: SafeRun(w, s, steps) && Lost(Run(w, s, steps), c)
  }

  /** The chunk queued again and acknowledged. */
  function Requeued(s: State, c: Id): State {
    AfterAck(AfterWriteQueue(s, c), {c})
  }

  /** The chunk is still acknowledged and stored, its deletion where it was, and nothing has been queued. */
  ghost predicate Follows(s: State, t: State, c: Id) {
    && (c in s.acked ==> c in t.acked)
    && (c in s.durable ==> c in t.durable)
    && (c in s.chunks ==> c in t.chunks)
    && (c in s.deleting ==> c in t.deleting && t.deleting[c] == s.deleting[c])
    && (c in t.queue ==> c in s.queue && t.queue[c] == s.queue[c])
  }

  /** How many more steps the processor may take before its next scan. */
  function Left(pc: Pc): nat {
    match pc
    case Idle => 0
    case Embedding(_) => 1
    case Scatter(got) => 4 * |got|
    case Marking(marked, got) => 1 + |marked| + 4 * |got|
    case Writing(got, _, added) => 4 * |got| + (if added then 1 else 2)
    case Scan(todo, _) => 10 + 5 * |todo|
    case Found(todo, _, _) => 13 + 5 * |todo|
    case Orphan(todo, _, _) => 11 + 5 * |todo|
    case Fast(todo, _, _, _, added) => if added then 11 + 5 * |todo| else 12 + 5 * |todo|
  }

  /** Collected for embedding in the scan under way. */
  predicate InBatch(pc: Pc, c: Id) {
    match pc
    case Scan(_, batch) => c in batch
    case Found(_, batch, _) => c in batch
    case Orphan(_, batch, _) => c in batch
    case Fast(_, batch, _, _, _) => c in batch
    case Embedding(batch) => c in batch
    case _ => false
  }

  /** A step of the processor that embeds nothing and brings its next scan closer. */
  ghost predicate Onward(w: World, s: State, step: Step, c: Id) {
    var t := Apply(w, s, step);
    && Plain(step) && Follows(s, t, c) && !BeingMarked(t, c) && Left(t.pc) < Left(s.pc)
    && (InBatch(s.pc, c) && !s.pc.Embedding? ==> InBatch(t.pc, c))
  }

  lemma VisitsOn(w: World, s: State, c: Id) returns (step: Step)
    requires s.pc.Scan? && s.pc.todo != {} && |s.pc.batch| < MaxBatch
    ensures Onward(w, s, step, c)
  {
    var x :| x in s.pc.todo;
    step := Visit(x);
  }

  lemma EndsOn(w: World, s: State, c: Id) returns (step: Step)
    requires s.pc.Scan? && (s.pc.todo == {} || |s.pc.batch| >= MaxBatch)
    ensures Onward(w, s, step, c)
  {
    step := EndScan;
  }

  lemma ReadsOn(w: World, s: State, c: Id) returns (step: Step)
    requires s.pc.Found? || s.pc.Orphan? || s.pc.Fast?
    ensures Onward(w, s, step, c)
  {
    match s.pc
    case Found(_, _, _) => step := ReadEmb;
    case Orphan(_, _, _) => step := DropOrphan;
    case Fast(_, _, _, _, added) => step := if added then FastDequeue else FastAdd;
  }

  lemma MarksOn(w: World, s: State, c: Id) returns (step: Step)
    requires s.pc.Marking? && s.pc.marked != {} && c !in s.pc.marked
    ensures Onward(w, s, step, c)
  {
    var x :| x in s.pc.marked;
    step := Mark(x);
  }

  lemma PutsOn(w: World, s: State, c: Id) returns (step: Step)
    requires s.pc.Marking? && s.pc.marked == {} && s.pc.got != {}
    ensures Onward(w, s, step, c)
  {
    var x :| x in s.pc.got;
    step := Put(x);
  }

  lemma WritesOn(w: World, s: State, c: Id) returns (step: Step)
    requires s.pc.Embedding? || s.pc.Writing?
    ensures Onward(w, s, step, c)
  {
    match s.pc
    case Embedding(_) => step := Refuse;
    case Writing(_, _, added) => step := if added then Dequeue else AddVec;
  }

  lemma ScattersOn(w: World, s: State, c: Id) returns (step: Step)
    requires s.pc.Scatter? && s.pc.got != {}
    ensures Onward(w, s, step, c)
  {
    var x :| x in s.pc.got;
    step := Put(x);
  }

  lemma GoesOn(w: World, s: State, c: Id) returns (step: Step)
    requires !AtLoopHead(s.pc) && !BeingMarked(s, c)
    ensures Onward(w, s, step, c)
  {
    match s.pc
    case Scan(todo, batch) =>
      if todo == {} || |batch| >= MaxBatch {
        step := EndsOn(w, s, c);
      } else {
        step := VisitsOn(w, s, c);
      }
    case Found(_, _, _) => step := ReadsOn(w, s, c);
    case Orphan(_, _, _) => step := ReadsOn(w, s, c);
    case Fast(_, _, _, _, _) => step := ReadsOn(w, s, c);
    case Marking(marked, _) =>
      if marked == {} {
        step := PutsOn(w, s, c);
      } else {
        step := MarksOn(w, s, c);
      }
    case Scatter(_) => step := ScattersOn(w, s, c);
    case _ => step := WritesOn(w, s, c);
  }

  /** Steps that need no guard. */
  predicate Plain(step: Step) {
    !step.WriteQueue? && !step.Copy?
  }

  predicate AllPlain(steps: seq<Step>) {
    forall i :: 0 <= i < |steps| ==> Plain(steps[i])
  }

  lemma {:induction false} PlainRun(w: World, s: State, steps: seq<Step>)
    requires AllPlain(steps)
    ensures SafeRun(w, s, steps) && TidyRun(w, s, steps)
    decreases steps
  {
    if steps != [] {
      assert Plain(steps[0]);
      assert forall i :: 0 <= i < |steps[1..]| ==> steps[1..][i] == steps[i + 1];
      PlainRun(w, Apply(w, s, steps[0]), steps[1..]);
    }
  }

  lemma {:induction false} ReachesLoopHead(w: World, s: State, c: Id) returns (steps: seq<Step>)
    requires !BeingMarked(s, c)
    ensures AllPlain(steps)
    ensures var t := Run(w, s, steps); AtLoopHead(t.pc) && Follows(s, t, c)
    decreases Left(s.pc)
  {
    steps := [];
    if !AtLoopHead(s.pc) {
      var step := GoesOn(w, s, c);
      var rest := ReachesLoopHead(w, Apply(w, s, step), c);
      steps := [step] + rest;
    }
  }

  lemma {:induction false} ReachesEmbedding(w: World, s: State, c: Id) returns (steps: seq<Step>)
    requires InBatch(s.pc, c)
    ensures AllPlain(steps)
    ensures var t := Run(w, s, steps); t.pc.Embedding? && c in t.pc.batch && Follows(s, t, c)
    decreases Left(s.pc)
  {
    steps := [];
    if !s.pc.Embedding? {
      var step := GoesOn(w, s, c);
      var rest := ReachesEmbedding(w, Apply(w, s, step), c);
      steps := [step] + rest;
    }
  }

  // ----- Two continuations: a chunk leaves the queue -----

  /** The chunk is off the queue and out of the processor's hands. */
  ghost predicate OffQueue(s: State, t: State, c: Id) {
    Follows(s, t, c) && c !in t.queue && !t.pc.Writing?
  }

  /** Unless it is about to be marked failed, a pending chunk can leave the queue. */
  lemma LeavesQueue(w: World, s: State, c: Id) returns (steps: seq<Step>)
    requires c in s.chunks && !BeingMarked(s, c) && (c in s.queue ==> s.queue[c] == Pending)
    ensures AllPlain(steps) && OffQueue(s, Run(w, s, steps), c)
  {
    steps := ReachesLoopHead(w, s, c);
    var t := Run(w, s, steps);
    if c in t.queue {
      var rest := DrainsOff(w, t, c);
      RunAppend(w, s, steps, rest);
      steps := steps + rest;
    }
  }

  /** From its loop head the processor can take a chunk off the queue. */
  lemma DrainsOff(w: World, s: State, c: Id) returns (steps: seq<Step>)
    requires AtLoopHead(s.pc) && c in s.chunks && c in s.queue && s.queue[c] == Pending
    ensures AllPlain(steps) && OffQueue(s, Run(w, s, steps), c)
  {
    ScanFinds(w, s, c);
    var d := Run(w, s, [StartScan, Visit(c), ReadEmb]);
    if InBatch(d.pc, c) {
      steps := CollectedLeaves(w, d, c);
    } else {
      steps := FinishesWindow(w, d, c);
    }
    RunAppend(w, s, [StartScan, Visit(c), ReadEmb], steps);
    steps := [StartScan, Visit(c), ReadEmb] + steps;
  }

  /** A new scan finds a pending chunk, and collects it or takes its embedding. */
  lemma ScanFinds(w: World, s: State, c: Id)
    requires AtLoopHead(s.pc) && c in s.chunks && c in s.queue && s.queue[c] == Pending
    ensures var d := Run(w, s, [StartScan, Visit(c), ReadEmb]);
            Follows(s, d, c) && (InBatch(d.pc, c) || c in Window(d.pc))
  {
    var a := AfterStartScan(s);
    assert c in PendingIds(s);
    var b := AfterVisit(a, a.pc.todo, {}, c);
    assert Apply(w, s, StartScan) == a;
    assert Apply(w, a, Visit(c)) == b;
    assert Apply(w, b, ReadEmb) == AfterReadEmb(b, b.pc.todo, {}, c);
    RunThree(w, s, StartScan, Visit(c), ReadEmb);
  }

  lemma CollectedLeaves(w: World, s: State, c: Id) returns (steps: seq<Step>)
    requires InBatch(s.pc, c)
    ensures AllPlain(steps) && OffQueue(s, Run(w, s, steps), c)
  {
    steps := ReachesEmbedding(w, s, c);
    var t := Run(w, s, steps);
    var rest := EmbeddedLeaves(w, t, c);
    RunAppend(w, s, steps, rest);
    steps := steps + rest;
  }

  lemma EmbeddedLeaves(w: World, s: State, c: Id) returns (steps: seq<Step>)
    requires s.pc.Embedding? && c in s.pc.batch
    ensures AllPlain(steps) && OffQueue(s, Run(w, s, steps), c)
  {
    EmbedPuts(w, s, c);
    var t := Run(w, s, [Embed({c}, {}), Put(c)]);
    steps := FinishesWindow(w, t, c);
    RunAppend(w, s, [Embed({c}, {}), Put(c)], steps);
    steps := [Embed({c}, {}), Put(c)] + steps;
  }

  lemma EmbedPuts(w: World, s: State, c: Id)
    requires s.pc.Embedding? && c in s.pc.batch
    ensures var t := Run(w, s, [Embed({c}, {}), Put(c)]); Follows(s, t, c) && c in Window(t.pc)
  {
    var a := s.(pc := Marking({}, {c}));
    assert Apply(w, s, Embed({c}, {})) == a;
    assert Apply(w, a, Put(c)) == AfterPut(w, a, {c}, c);
    RunTwo(w, s, Embed({c}, {}), Put(c));
  }

  /** What the index will hold for a chunk once the processor lets go of it. */
  predicate Shows(w: World, s: State, c: Id, v: Vec) {
    if s.pc.Fast? && s.pc.c == c && !s.pc.added then s.pc.v == v
    else if s.pc.Writing? && s.pc.c == c && !s.pc.added then w.vector(s.model, w.text(c)) == v
    else c in s.vec && s.vec[c] == v
  }

  /** The processor has let go of a chunk that it had in hand. */
  ghost predicate LetGo(w: World, s: State, t: State, c: Id) {
    && OffQueue(s, t, c) && t.emb == s.emb && Window(t.pc) == {}
    && forall v :: Shows(w, t, c, v) <==> Shows(w, s, c, v)
  }

  /** The processor removes the queue record it has decided to remove, and the index shows what it was
      about to. */
  lemma FinishesWindow(w: World, s: State, c: Id) returns (steps: seq<Step>)
    requires c in Window(s.pc)
    ensures AllPlain(steps) && LetGo(w, s, Run(w, s, steps), c)
  {
    match s.pc
    case Orphan(_, _, _) => steps := FinishesOrphan(w, s, c);
    case Fast(_, _, _, _, _) => steps := FinishesFast(w, s, c);
    case Writing(_, _, _) => steps := FinishesWriting(w, s, c);
  }

  lemma FinishesOrphan(w: World, s: State, c: Id) returns (steps: seq<Step>)
    requires s.pc.Orphan? && s.pc.c == c
    ensures AllPlain(steps) && LetGo(w, s, Run(w, s, steps), c)
  {
    steps := [DropOrphan];
    assert Apply(w, s, DropOrphan) == AfterDropOrphan(s, s.pc.todo, s.pc.batch, c);
    RunOne(w, s, DropOrphan);
  }

  lemma FinishesFast(w: World, s: State, c: Id) returns (steps: seq<Step>)
    requires s.pc.Fast? && s.pc.c == c
    ensures AllPlain(steps) && LetGo(w, s, Run(w, s, steps), c)
  {
    steps := [FastDequeue];
    if s.pc.added {
      FastDequeueLetsGo(w, s, c);
    } else {
      var a := AfterFastAdd(s, s.pc.todo, s.pc.batch, c, s.pc.v);
      assert Apply(w, s, FastAdd) == a;
      FastDequeueLetsGo(w, a, c);
      StepBy(w, s, FastAdd, steps);
      steps := [FastAdd] + steps;
    }
  }

  lemma FastDequeueLetsGo(w: World, s: State, c: Id)
    requires s.pc.Fast? && s.pc.c == c && s.pc.added
    ensures LetGo(w, s, Run(w, s, [FastDequeue]), c)
  {
    assert Apply(w, s, FastDequeue) == AfterDropOrphan(s, s.pc.todo, s.pc.batch, c);
    RunOne(w, s, FastDequeue);
  }

  lemma FinishesWriting(w: World, s: State, c: Id) returns (steps: seq<Step>)
    requires s.pc.Writing? && s.pc.c == c
    ensures AllPlain(steps) && LetGo(w, s, Run(w, s, steps), c)
  {
    steps := [Dequeue];
    if s.pc.added {
      DequeueLetsGo(w, s, c);
    } else {
      var a := AfterAddVec(w, s, s.pc.got, c);
      assert Apply(w, s, AddVec) == a;
      DequeueLetsGo(w, a, c);
      StepBy(w, s, AddVec, steps);
      steps := [AddVec] + steps;
    }
  }

  lemma DequeueLetsGo(w: World, s: State, c: Id)
    requires s.pc.Writing? && s.pc.c == c && s.pc.added
    ensures LetGo(w, s, Run(w, s, [Dequeue]), c)
  {
    assert Apply(w, s, Dequeue) == AfterDequeue(s, s.pc.got, c);
    RunOne(w, s, Dequeue);
  }

  /** A scan drops the queue record of a chunk that is gone, and changes nothing else. */
  lemma OrphansLeave(w: World, s: State, c: Id)
    requires AtLoopHead(s.pc) && c !in s.chunks && c in s.queue && s.queue[c] == Pending
    ensures var t := Run(w, s, [StartScan, Visit(c), DropOrphan]);
            && t.queue == s.queue - {c} && t.chunks == s.chunks && t.emb == s.emb && t.vec == s.vec
            && t.pc == Scan(PendingIds(s) - {c}, {})
  {
    var a := AfterStartScan(s);
    assert c in PendingIds(s);
    var b := AfterVisit(a, a.pc.todo, {}, c);
    assert Apply(w, s, StartScan) == a;
    assert Apply(w, a, Visit(c)) == b;
    assert Apply(w, b, DropOrphan) == AfterDropOrphan(b, b.pc.todo, {}, c);
    RunThree(w, s, StartScan, Visit(c), DropOrphan);
  }

  /** A deletion removes what its scan finds, a chunk that is stored and that no other deletion has in hand. */
  lemma DeletesOnlyFound(w: World, s: State, c: Id)
    ensures c !in s.chunks || c in s.deleting ==> Apply(w, s, DelChunk(c)) == s
    ensures c !in s.deleting ==> Apply(w, s, DelEmb(c)) == s && Apply(w, s, DelVec(c)) == s
    ensures c in s.chunks && c !in s.deleting ==> c !in Apply(w, s, DelChunk(c)).chunks
  {
  }

  /** What the processor has collected. */
  function BatchOf(pc: Pc): set<Id> {
    match pc
    case Scan(_, batch) => batch
    case Found(_, batch, _) => batch
    case Orphan(_, batch, _) => batch
    case Fast(_, batch, _, _, _) => batch
    case Embedding(batch) => batch
    case _ => {}
  }

  ghost predicate SmallBatch(pc: Pc) {
    |BatchOf(pc)| <= if pc.Found? || pc.Orphan? || pc.Fast? then 31 else 32
  }

  lemma SmallBatchStep(w: World, s: State, step: Step)
    requires SmallBatch(s.pc)
    ensures SmallBatch(Apply(w, s, step).pc)
  {
  }

  /** In every run at most 32 chunks are embedded together, and those that obtain a vector and those marked
      failed are different ones of them. */
  lemma {:induction false} BatchesAreSmall(w: World, m: Model, steps: seq<Step>, got: set<Id>, marked: set<Id>)
    ensures var s := Run(w, Start(m), steps); |BatchOf(s.pc)| <= 32
    ensures var s := Run(w, Start(m), steps); var t := Apply(w, s, Embed(got, marked));
            t != s ==> s.pc.Embedding? && t.pc == Marking(marked, got)
                       && got <= BatchOf(s.pc) && marked <= BatchOf(s.pc) && got * marked == {}
  {
    SmallBatchRun(w, Start(m), steps);
  }

  lemma {:induction false} SmallBatchRun(w: World, s: State, steps: seq<Step>)
    requires SmallBatch(s.pc)
    ensures SmallBatch(Run(w, s, steps).pc)
    decreases steps
  {
    if steps != [] {
      SmallBatchStep(w, s, steps[0]);
      SmallBatchRun(w, Apply(w, s, steps[0]), steps[1..]);
    }
  }

  // ----- Losses -----

  /** A sequence of steps none of which queues anything. */
  lemma {:induction false} NoQueueing(w: World, s: State, steps: seq<Step>)
    requires forall i :: 0 <= i < |steps| ==> !steps[i].WriteQueue?
    ensures SafeRun(w, s, steps)
    decreases steps
  {
    if steps != [] {
      NoQueueing(w, Apply(w, s, steps[0]), steps[1..]);
    }
  }

  lemma LosesAfter(w: World, s: State, steps: seq<Step>, c: Id)
    requires AllPlain(steps) && Lost(Run(w, s, steps), c)
    ensures CanLose(w, s, c)
  {
    PlainRun(w, s, steps);
  }

  /** From any state: when the queueing is not safe, some continuation loses the chunk. */
  lemma UnsafeLoses(w: World, s: State, c: Id)
    requires c in s.chunks && !SafeQueue(s, c)
    ensures CanLose(w, Requeued(s, c), c)
  {
    var t := Requeued(s, c);
    if c in Window(s.pc) && c !in s.emb {
      var steps := FinishesWindow(w, t, c);
      LosesAfter(w, t, steps, c);
    } else {
      var steps := LeavesQueue(w, t, c);
      RunAppend(w, t, steps, [DelEmb(c)]);
      RunOne(w, Run(w, t, steps), DelEmb(c));
      LosesAfter(w, t, steps + [DelEmb(c)], c);
    }
  }

  /** In any state a safe run reaches, queueing a stored chunk and acknowledging it can lead to its loss
      iff the queueing was not safe. */
  lemma QueueingLosesIff(w: World, m: Model, run: seq<Step>, c: Id)
    requires SafeRun(w, Start(m), run) && c in Run(w, Start(m), run).chunks
    ensures var s := Run(w, Start(m), run); CanLose(w, Requeued(s, c), c) <==> !SafeQueue(s, c)
  {
    var s := Run(w, Start(m), run);
    if SafeQueue(s, c) {
      NoLossRun(w, Start(m), run);
      NoLossStep(w, s, WriteQueue(c));
      NoLossStep(w, AfterWriteQueue(s, c), Ack({c}));
      forall steps | SafeRun(w, Requeued(s, c), steps) ensures !Lost(Run(w, Requeued(s, c), steps), c) {
        NoLossRun(w, Requeued(s, c), steps);
        assert Covered(Run(w, Requeued(s, c), steps), c);
      }
    } else {
      UnsafeLoses(w, s, c);
    }
  }

  // ----- Unsafe states are reached -----

  lemma StepBy(w: World, s: State, x: Step, rest: seq<Step>)
    ensures Run(w, s, [x] + rest) == Run(w, Apply(w, s, x), rest)
  {
    assert ([x] + rest)[1..] == rest;
  }

  function Ingested(m: Model, c: Id): State {
    State({c}, map[], map[c := Pending], m, map[], Idle, map[], map[], {c}, {c}, {c})
  }

  lemma Ingests(w: World, m: Model, c: Id)
    ensures var run := [WriteChunk(c), WriteQueue(c), Ack({c})];
            Run(w, Start(m), run) == Ingested(m, c) && SafeRun(w, Start(m), run)
  {
    var a := Apply(w, Start(m), WriteChunk(c));
    var b := Apply(w, a, WriteQueue(c));
    StepBy(w, Start(m), WriteChunk(c), [WriteQueue(c), Ack({c})]);
    StepBy(w, a, WriteQueue(c), [Ack({c})]);
    RunOne(w, b, Ack({c}));
    assert a.chunks == {c} && b.durable == {c};
    assert Apply(w, b, Ack({c})) == Ingested(m, c);
    assert [WriteChunk(c)] + [WriteQueue(c), Ack({c})] == [WriteChunk(c), WriteQueue(c), Ack({c})];
    assert [WriteQueue(c)] + [Ack({c})] == [WriteQueue(c), Ack({c})];
    SafeIngest(w, m, c);
  }

  lemma SafeIngest(w: World, m: Model, c: Id)
    ensures SafeRun(w, Start(m), [WriteChunk(c), WriteQueue(c), Ack({c})])
  {
    var a := Apply(w, Start(m), WriteChunk(c));
    var b := Apply(w, a, WriteQueue(c));
    assert [WriteChunk(c), WriteQueue(c), Ack({c})][1..] == [WriteQueue(c), Ack({c})];
    assert [WriteQueue(c), Ack({c})][1..] == [Ack({c})];
    NoQueueing(w, b, [Ack({c})]);
  }

  /** Reached by a safe run that begins by storing, queueing and acknowledging the chunk. */
  ghost predicate Reached(w: World, m: Model, c: Id, s: State) {
    exists more :: SafeRun(w, Ingested(m, c), more) && Run(w, Ingested(m, c), more) == s
  }

  lemma ReachedByRun(w: World, m: Model, c: Id, s: State) returns (run: seq<Step>)
    requires Reached(w, m, c, s)
    ensures SafeRun(w, Start(m), run) && Run(w, Start(m), run) == s
    ensures [WriteChunk(c), WriteQueue(c), Ack({c})] <= run
  {
    var more :| SafeRun(w, Ingested(m, c), more) && Run(w, Ingested(m, c), more) == s;
    Ingests(w, m, c);
    SafeAppend(w, Start(m), [WriteChunk(c), WriteQueue(c), Ack({c})], more);
    RunAppend(w, Start(m), [WriteChunk(c), WriteQueue(c), Ack({c})], more);
    run := [WriteChunk(c), WriteQueue(c), Ack({c})] + more;
  }

  lemma ReachedNow(w: World, m: Model, c: Id)
    ensures Reached(w, m, c, Ingested(m, c))
  {
    assert SafeRun(w, Ingested(m, c), []) && Run(w, Ingested(m, c), []) == Ingested(m, c);
  }

  lemma ReachedOn(w: World, m: Model, c: Id, s: State, x: Step)
    requires Reached(w, m, c, s) && !x.WriteQueue?
    ensures Reached(w, m, c, Apply(w, s, x))
  {
    var more :| SafeRun(w, Ingested(m, c), more) && Run(w, Ingested(m, c), more) == s;
    NoQueueing(w, s, [x]);
    RunOne(w, s, x);
    SafeAppend(w, Ingested(m, c), more, [x]);
    RunAppend(w, Ingested(m, c), more, [x]);
    assert SafeRun(w, Ingested(m, c), more + [x]) && Run(w, Ingested(m, c), more + [x]) == Apply(w, s, x);
  }

  /** The scan has collected the chunk. */
  lemma CollectedReached(w: World, m: Model, c: Id) returns (s: State)
    ensures Reached(w, m, c, s) && s == Ingested(m, c).(pc := Scan({}, {c}), recent := {})
  {
    var s0 := Ingested(m, c);
    ReachedNow(w, m, c);
    ReachedOn(w, m, c, s0, StartScan);
    var s1 := Apply(w, s0, StartScan);
    assert PendingIds(s0) == {c};
    ReachedOn(w, m, c, s1, Visit(c));
    var s2 := Apply(w, s1, Visit(c));
    assert {c} - {c} == {} && s2.pc == Found({}, {}, c);
    ReachedOn(w, m, c, s2, ReadEmb);
    s := Apply(w, s2, ReadEmb);
    assert {} + {c} == {c};
  }

  /** The processor has embedded the chunk, and has written nothing yet. */
  lemma EmbeddedReached(w: World, m: Model, c: Id) returns (s: State)
    ensures Reached(w, m, c, s) && s == Ingested(m, c).(pc := Marking({}, {c}), recent := {})
  {
    var s3 := CollectedReached(w, m, c);
    ReachedOn(w, m, c, s3, EndScan);
    var s4 := Apply(w, s3, EndScan);
    assert s4.pc == Embedding({c});
    ReachedOn(w, m, c, s4, Embed({c}, {}));
    s := Apply(w, s4, Embed({c}, {}));
  }

  /** The processor has written the embedding, and not yet removed the queue record. */
  lemma PutReached(w: World, m: Model, c: Id) returns (s: State)
    ensures Reached(w, m, c, s) && s.pc == Writing({}, c, false) && s.emb == map[c := w.Embeds(m, c)] && s.model == m
    ensures s.chunks == {c} && s.queue == map[c := Pending] && s.acked == {c} && s.durable == {c} && s.deleting == map[]
  {
    var s0 := EmbeddedReached(w, m, c);
    ReachedOn(w, m, c, s0, Put(c));
    s := Apply(w, s0, Put(c));
    assert {c} - {c} == {};
  }

  /** A chunk deleted, and stored again, between the writing of its embedding and the removal of its queue
      record. */
  lemma WindowReached(w: World, m: Model, c: Id) returns (s: State)
    ensures Reached(w, m, c, s) && c in s.chunks && c in Window(s.pc) && c !in s.emb && c !in s.deleting
  {
    var s1 := PutReached(w, m, c);
    ReachedOn(w, m, c, s1, DelChunk(c));
    var s2 := Apply(w, s1, DelChunk(c));
    ReachedOn(w, m, c, s2, DelEmb(c));
    var s3 := Apply(w, s2, DelEmb(c));
    ReachedOn(w, m, c, s3, DelVec(c));
    var s4 := Apply(w, s3, DelVec(c));
    ReachedOn(w, m, c, s4, WriteChunk(c));
    s := Apply(w, s4, WriteChunk(c));
  }

  /** A chunk stored again in the middle of its deletion. */
  lemma HalfDeletedReached(w: World, m: Model, c: Id) returns (s: State)
    ensures Reached(w, m, c, s) && c in s.chunks && HalfDeleted(s, c) && s.pc == Idle
  {
    var s0 := Ingested(m, c);
    ReachedNow(w, m, c);
    ReachedOn(w, m, c, s0, DelChunk(c));
    var s1 := Apply(w, s0, DelChunk(c));
    ReachedOn(w, m, c, s1, WriteChunk(c));
    s := Apply(w, s1, WriteChunk(c));
  }

  /** Both losses happen: to a chunk stored, queued and acknowledged, then stored once more. */
  lemma BothLossesHappen(w: World, m: Model, c: Id) returns (a: State, b: State)
    ensures Reached(w, m, c, a) && c in Window(a.pc) && CanLose(w, Requeued(a, c), c)
    ensures Reached(w, m, c, b) && HalfDeleted(b, c) && CanLose(w, Requeued(b, c), c)
  {
    a := WindowReached(w, m, c);
    UnsafeLoses(w, a, c);
    b := HalfDeletedReached(w, m, c);
    UnsafeLoses(w, b, c);
  }

  // ----- The vector index -----

  /** Off the queue and out of the processor's hands, and not in the index as its record says. */
  predicate Unindexed(s: State, c: Id) {
    && c in s.durable && c !in s.queue && !(s.pc.Writing? && s.pc.c == c)
    && !(c in s.emb && c in s.vec && s.vec[c] == s.emb[c].vec)
  }

  /** Once the processor lets go of the chunk, the index shows its record. */
  predicate Settles(w: World, s: State, c: Id) {
    c in s.emb && Shows(w, s, c, s.emb[c].vec)
  }

  /** For the index a stored chunk may be queued again unless its record is being removed while the index
      is not about to show its embedding, or it is being deleted and its record can still leave the queue.
      A chunk that is not to pass through the queue again may be copied over iff the index shows, or is
      about to show, the vector copied. */
  predicate Tidy(w: World, s: State, step: Step) {
    match step
    case WriteQueue(c) =>
      c in s.chunks ==> (c in Window(s.pc) ==> Settles(w, s, c)) && (c in s.deleting ==> BeingMarked(s, c))
    case Copy(o, c) =>
      MayCopy(w, s, o, c) && c in s.durable && (c !in s.queue || c in Window(s.pc)) ==>
        Shows(w, s, c, s.captured[o].vec)
    case _ => true
  }

  predicate TidyRun(w: World, s: State, steps: seq<Step>)
    decreases steps
  {
    steps == [] || (Tidy(w, s, steps[0]) && TidyRun(w, Apply(w, s, steps[0]), steps[1..]))
  }

  /** What the processor may still take off the queue is in the queue, once. */
  ghost predicate Tracked(s: State, c: Id) {
    && (c in Targets(s.pc) ==> c in s.queue)
    && match s.pc
       case Scan(todo, batch) => c !in todo || c !in batch
       case Found(todo, batch, x) => (c !in todo || c !in batch) && (c == x ==> c !in todo && c !in batch)
       case Orphan(todo, batch, x) => (c !in todo || c !in batch) && (c == x ==> c !in todo && c !in batch)
       case Fast(todo, batch, x, _, _) => (c !in todo || c !in batch) && (c == x ==> c !in todo && c !in batch)
       case Marking(marked, got) => c !in marked || c !in got
       case Writing(got, x, _) => c == x ==> c !in got
       case _ => true
  }

  /** It is in the queue and will not leave it: marked failed, or about to be. */
  ghost predicate HeldBack(s: State, c: Id) {
    c in s.queue && (BeingMarked(s, c) || (s.queue[c] == Failed && c !in Targets(s.pc)))
  }

  ghost predicate Handled(w: World, s: State, c: Id) {
    && Tracked(s, c)
    && (c in s.durable ==>
          && c in s.chunks
          && (c in s.deleting ==> HeldBack(s, c))
          && (c !in s.queue || c in Window(s.pc) ==> Settles(w, s, c)))
  }

  ghost predicate InvIndex(w: World, s: State) {
    forall c :: Handled(w, s, c)
  }

  lemma IndexIngest(w: World, s: State, step: Step, x: Id)
    requires Handled(w, s, x) && Tidy(w, s, step) && IsIngest(step)
    ensures Handled(w, ApplyIngest(w, s, step), x)
  {
  }

  lemma IndexDelete(w: World, s: State, step: Step, x: Id)
    requires Handled(w, s, x) && IsDelete(step)
    ensures Handled(w, ApplyDelete(s, step), x)
  {
  }

  lemma IndexScan(w: World, s: State, step: Step, x: Id)
    requires Handled(w, s, x) && IsScan(step)
    ensures Handled(w, ApplyScan(s, step), x)
  {
  }

  lemma IndexBatch(w: World, s: State, step: Step, x: Id)
    requires Handled(w, s, x) && !IsIngest(step) && !IsDelete(step) && !IsScan(step)
    ensures Handled(w, ApplyBatch(w, s, step), x)
  {
  }

  lemma IndexStep(w: World, s: State, step: Step)
    requires InvIndex(w, s) && Tidy(w, s, step)
    ensures InvIndex(w, Apply(w, s, step))
  {
    forall x ensures Handled(w, Apply(w, s, step), x) {
      assert Handled(w, s, x);
      if IsIngest(step) {
        IndexIngest(w, s, step, x);
      } else if IsDelete(step) {
        IndexDelete(w, s, step, x);
      } else if IsScan(step) {
        IndexScan(w, s, step, x);
      } else {
        IndexBatch(w, s, step, x);
      }
    }
  }

  lemma {:induction false} IndexRun(w: World, s: State, steps: seq<Step>)
    requires InvIndex(w, s) && TidyRun(w, s, steps)
    ensures InvIndex(w, Run(w, s, steps))
    decreases steps
  {
    if steps != [] {
      IndexStep(w, s, steps[0]);
      IndexRun(w, Apply(w, s, steps[0]), steps[1..]);
    }
  }

  lemma HandledIsIndexed(w: World, s: State, c: Id)
    requires Handled(w, s, c)
    ensures !Unindexed(s, c)
  {
  }

  /** A chunk stored and queued, and not deleted since, is in the queue, or in the middle of being
      scattered, or has an embedding whose vector the index holds. */
  lemma IndexLagsOnlyQueued(w: World, m: Model, steps: seq<Step>, c: Id)
    requires TidyRun(w, Start(m), steps)
    ensures var s := Run(w, Start(m), steps);
            c in s.durable ==>
              || c in s.queue || (s.pc.Writing? && s.pc.c == c)
              || (c in s.emb && c in s.vec && s.vec[c] == s.emb[c].vec)
  {
    IndexRun(w, Start(m), steps);
    HandledIsIndexed(w, Run(w, Start(m), steps), c);
  }

  // ----- Exactly which queueings and copies make the index lag -----

  /** Some continuation, tidy in every step, takes the chunk off the queue without its vector. */
  ghost predicate CanLag(w: World, s: State, c: Id) {
    exists steps :: TidyRun(w, s, steps) && Unindexed(Run(w, s, steps), c)
  }

  lemma LagsAfter(w: World, s: State, steps: seq<Step>, c: Id)
    requires AllPlain(steps) && Unindexed(Run(w, s, steps), c)
    ensures CanLag(w, s, c)
  {
    PlainRun(w, s, steps);
  }

  /** No tidy continuation of a state where all is handled leaves the index behind. */
  lemma NeverLags(w: World, s: State, c: Id)
    requires InvIndex(w, s)
    ensures !CanLag(w, s, c)
  {
    forall steps | TidyRun(w, s, steps) ensures !Unindexed(Run(w, s, steps), c) {
      IndexRun(w, s, steps);
      HandledIsIndexed(w, Run(w, s, steps), c);
    }
  }

  lemma WindowLags(w: World, s: State, c: Id)
    requires c in s.durable && c in Window(s.pc) && !Settles(w, s, c)
    ensures CanLag(w, s, c)
  {
    var steps := FinishesWindow(w, s, c);
    LagsAfter(w, s, steps, c);
  }

  /** The rest of a deletion: of the embedding and the vector, or of the vector alone. */
  lemma DeletionLags(w: World, s: State, c: Id)
    requires c in s.durable && c in s.chunks && c in s.deleting && !BeingMarked(s, c)
    requires c in s.queue ==> s.queue[c] == Pending
    ensures CanLag(w, s, c)
  {
    var steps := LeavesQueue(w, s, c);
    var t := Run(w, s, steps);
    var last := if t.deleting[c] then DelVec(c) else DelEmb(c);
    RunAppend(w, s, steps, [last]);
    RunOne(w, t, last);
    LagsAfter(w, s, steps + [last], c);
  }

  /** From any state: a queueing that is not tidy has a continuation after which the index lags. */
  lemma UntidyLags(w: World, s: State, c: Id)
    requires c in s.chunks && !Tidy(w, s, WriteQueue(c))
    ensures CanLag(w, AfterWriteQueue(s, c), c)
  {
    var t := AfterWriteQueue(s, c);
    if c in Window(s.pc) && !Settles(w, s, c) {
      WindowLags(w, t, c);
    } else {
      DeletionLags(w, t, c);
    }
  }

  /** In any state a tidy run reaches, queueing a stored chunk can lead to its being off the queue without
      its vector in the index iff the queueing was not tidy. */
  lemma QueueingLagsIff(w: World, m: Model, run: seq<Step>, c: Id)
    requires TidyRun(w, Start(m), run) && c in Run(w, Start(m), run).chunks
    ensures var s := Run(w, Start(m), run); CanLag(w, AfterWriteQueue(s, c), c) <==> !Tidy(w, s, WriteQueue(c))
  {
    var s := Run(w, Start(m), run);
    if Tidy(w, s, WriteQueue(c)) {
      IndexRun(w, Start(m), run);
      IndexStep(w, s, WriteQueue(c));
      NeverLags(w, AfterWriteQueue(s, c), c);
    } else {
      UntidyLags(w, s, c);
    }
  }

  /** And so is copying a kept record to a chunk. */
  lemma CopyLagsIff(w: World, m: Model, run: seq<Step>, o: Id, c: Id)
    requires TidyRun(w, Start(m), run) && MayCopy(w, Run(w, Start(m), run), o, c)
    ensures var s := Run(w, Start(m), run); CanLag(w, AfterCopy(s, o, c), c) <==> !Tidy(w, s, Copy(o, c))
  {
    var s := Run(w, Start(m), run);
    var t := AfterCopy(s, o, c);
    IndexRun(w, Start(m), run);
    if Tidy(w, s, Copy(o, c)) {
      IndexStep(w, s, Copy(o, c));
      NeverLags(w, t, c);
    } else if c in Window(s.pc) {
      WindowLags(w, t, c);
    } else {
      assert Handled(w, s, c) && Run(w, t, []) == t;
      LagsAfter(w, t, [], c);
    }
  }

  /** It happens, to a queueing that loses nothing: a chunk stored again between the removal of its
      embedding and that of its vector. */
  lemma LagHappens(w: World, m: Model, c: Id) returns (s: State)
    ensures Reached(w, m, c, s) && SafeQueue(s, c) && c in s.chunks && s.pc == Idle
    ensures CanLag(w, AfterWriteQueue(s, c), c)
  {
    var s0 := Ingested(m, c);
    ReachedNow(w, m, c);
    ReachedOn(w, m, c, s0, DelChunk(c));
    var s1 := Apply(w, s0, DelChunk(c));
    ReachedOn(w, m, c, s1, DelEmb(c));
    var s2 := Apply(w, s1, DelEmb(c));
    ReachedOn(w, m, c, s2, WriteChunk(c));
    s := Apply(w, s2, WriteChunk(c));
    UntidyLags(w, s, c);
  }

  // ----- Records and models -----

  /** What is copied is what the current model gives the new chunk. */
  lemma CopyIsCurrent(w: World, s: State, o: Id, c: Id)
    requires GenuineIn(w, s.captured) && MayCopy(w, s, o, c)
    ensures s.captured[o] == w.Embeds(s.model, c)
  {
    assert s.captured[o] == w.Embeds(s.captured[o].model, o);
  }

  /** In every run, with any restarts and copies, every record is what its own model gives the chunk's own
      text; and what a copy writes is of the current model. */
  lemma RecordsAreOwn(w: World, m: Model, steps: seq<Step>, c: Id, o: Id)
    ensures var s := Run(w, Start(m), steps);
            && (c in s.emb ==> s.emb[c].vec == w.vector(s.emb[c].model, w.text(c)))
            && (MayCopy(w, s, o, c) ==> s.captured[o] == w.Embeds(s.model, c))
  {
    GenuineRun(w, Start(m), steps);
    var s := Run(w, Start(m), steps);
    if MayCopy(w, s, o, c) {
      CopyIsCurrent(w, s, o, c);
    }
  }

  /** Neither captures the old chunk again nor loses what was captured. */
  ghost predicate KeepsCapture(steps: seq<Step>, o: Id) {
    forall i :: 0 <= i < |steps| ==> steps[i] != Capture(o) && !steps[i].Restart?
  }

  lemma {:induction false} CapturedStays(w: World, s: State, steps: seq<Step>, o: Id)
    requires KeepsCapture(steps, o) && o in s.captured
    ensures var t := Run(w, s, steps); o in t.captured && t.captured[o] == s.captured[o] && t.model == s.model
    decreases steps
  {
    if steps != [] {
      assert steps[0] != Capture(o) && !steps[0].Restart?;
      assert forall i :: 0 <= i < |steps[1..]| ==> steps[1..][i] == steps[i + 1];
      CapturedStep(w, s, steps[0], o);
      CapturedStays(w, Apply(w, s, steps[0]), steps[1..], o);
    }
  }

  lemma CapturedStep(w: World, s: State, step: Step, o: Id)
    requires step != Capture(o) && !step.Restart? && o in s.captured
    ensures var t := Apply(w, s, step); o in t.captured && t.captured[o] == s.captured[o] && t.model == s.model
  {
    if IsScan(step) {
      ScanFrame(s, step);
    } else if step.EndScan? || step.Refuse? || step.Embed? {
      BatchFrame(w, s, step);
    } else if step.Mark? || step.Put? || step.AddVec? || step.Dequeue? {
      WriteFrame(w, s, step);
    }
  }

  /** A record captured before its chunk's deletion reaches the new chunk with the same text, whatever
      happens in between, if its model is still the current one; otherwise the new chunk keeps what it has. */
  lemma CaptureReachesCopy(w: World, s: State, between: seq<Step>, o: Id, c: Id)
    requires o in s.chunks && o in s.emb && KeepsCapture(between, o) && w.text(o) == w.text(c)
    ensures var t := Run(w, Apply(w, s, Capture(o)), between); var u := Apply(w, t, Copy(o, c));
            if s.emb[o].model == s.model then c in u.emb && u.emb[c] == s.emb[o] else u.emb == t.emb
  {
    CapturedStays(w, Apply(w, s, Capture(o)), between, o);
  }

  /** A crash loses what was captured: nothing is copied until it is captured again. */
  lemma RestartLosesCaptures(w: World, s: State, m: Model, o: Id, c: Id)
    ensures var t := Apply(w, s, Restart(m)); Apply(w, t, Copy(o, c)) == t
  {
  }

  /** The model never changes from here on. */
  predicate SameModel(steps: seq<Step>, m: Model) {
    forall i :: 0 <= i < |steps| ==> steps[i].Restart? ==> steps[i].model == m
  }

  ghost predicate AllOf(s: State, m: Model) {
    s.model == m && forall c :: c in s.emb ==> s.emb[c].model == m
  }

  lemma AllOfStep(w: World, s: State, m: Model, step: Step)
    requires AllOf(s, m) && (step.Restart? ==> step.model == m)
    ensures AllOf(Apply(w, s, step), m)
  {
  }

  /** While the model stays the same, so do all records'. */
  lemma {:induction false} NoStaleWithoutChange(w: World, s: State, m: Model, steps: seq<Step>)
    requires AllOf(s, m) && SameModel(steps, m)
    ensures AllOf(Run(w, s, steps), m)
    decreases steps
  {
    if steps != [] {
      assert steps[0].Restart? ==> steps[0].model == m;
      assert forall i :: 0 <= i < |steps[1..]| ==> steps[1..][i] == steps[i + 1];
      AllOfStep(w, s, m, steps[0]);
      NoStaleWithoutChange(w, Apply(w, s, steps[0]), m, steps[1..]);
    }
  }

  /** After a change of model, a pending chunk that the scan finds with a record is dequeued with that
      record's vector in the index, whatever its model: it ends up embedded by the current model iff the
      record already was. */
  lemma FastPathKeepsModel(w: World, s: State)
    requires s.pc.Found? && s.pc.c in s.emb
    ensures var t := Apply(w, Apply(w, Apply(w, s, ReadEmb), FastAdd), FastDequeue); var c := s.pc.c;
            && t.emb == s.emb && c !in t.queue && c in t.vec && t.vec[c] == s.emb[c].vec
            && (t.emb[c] == w.Embeds(t.model, c) <==> s.emb[c] == w.Embeds(s.model, c))
  {
  }

  /** It happens: a crash after the embedding is written and before its queue record goes, and a restart
      with another model. The chunk is off the queue with the older model's vector. */
  lemma StaleVectorStays(w: World, m: Model, other: Model, c: Id) returns (s: State)
    ensures Reached(w, m, c, s)
    ensures s.pc == Scan({}, {}) && s.model == other && c in s.acked && c !in s.queue
    ensures c in s.emb && s.emb[c] == w.Embeds(m, c) && c in s.vec && s.vec[c] == w.vector(m, w.text(c))
  {
    var s1 := PutReached(w, m, c);
    ReachedOn(w, m, c, s1, Restart(other));
    var s2 := Apply(w, s1, Restart(other));
    ReachedOn(w, m, c, s2, StartScan);
    var s3 := Apply(w, s2, StartScan);
    assert PendingIds(s2) == {c};
    ReachedOn(w, m, c, s3, Visit(c));
    var s4 := Apply(w, s3, Visit(c));
    assert s4.pc == Found({}, {}, c);
    s := FastPath(w, m, c, s4);
  }

  lemma FastPath(w: World, m: Model, c: Id, s: State) returns (t: State)
    requires Reached(w, m, c, s) && s.pc == Found({}, {}, c) && c in s.emb
    ensures Reached(w, m, c, t) && t.pc == Scan({}, {}) && t.model == s.model && t.acked == s.acked
    ensures t.emb == s.emb && c !in t.queue && c in t.vec && t.vec[c] == s.emb[c].vec
  {
    ReachedOn(w, m, c, s, ReadEmb);
    ReachedOn(w, m, c, Apply(w, s, ReadEmb), FastAdd);
    ReachedOn(w, m, c, Apply(w, Apply(w, s, ReadEmb), FastAdd), FastDequeue);
    t := Apply(w, Apply(w, Apply(w, s, ReadEmb), FastAdd), FastDequeue);
  }

  // ----- Drains and recovery -----

  predicate Scanning(pc: Pc) {
    pc.Scan? || pc.Found? || pc.Orphan? || pc.Fast?
  }

  /** A scan has before it, or has collected, every pending chunk queued before it began. */
  ghost predicate Complete(s: State, c: Id) {
    Scanning(s.pc) && c in s.durable && c !in s.recent && c in s.queue && s.queue[c] == Pending ==> c in Targets(s.pc)
  }

  lemma CompleteOutside(w: World, s: State, step: Step, x: Id)
    requires Complete(s, x) && (IsIngest(step) || IsDelete(step))
    ensures Complete(Apply(w, s, step), x)
  {
  }

  lemma CompleteScan(s: State, step: Step, x: Id)
    requires Complete(s, x) && IsScan(step)
    ensures Complete(ApplyScan(s, step), x)
  {
  }

  lemma CompleteBatch(w: World, s: State, step: Step, x: Id)
    requires Complete(s, x) && !IsIngest(step) && !IsDelete(step) && !IsScan(step)
    ensures Complete(ApplyBatch(w, s, step), x)
  {
  }

  lemma {:induction false} CompleteRun(w: World, s: State, steps: seq<Step>, x: Id)
    requires Complete(s, x)
    ensures Complete(Run(w, s, steps), x)
    decreases steps
  {
    if steps != [] {
      var step := steps[0];
      if IsIngest(step) || IsDelete(step) {
        CompleteOutside(w, s, step, x);
      } else if IsScan(step) {
        CompleteScan(s, step, x);
      } else {
        CompleteBatch(w, s, step, x);
      }
      CompleteRun(w, Apply(w, s, step), steps[1..], x);
    }
  }

  /** A drain that ends on an empty batch leaves every chunk that was queued before its last scan began
      embedded and out of the queue, or marked failed. */
  lemma DrainedOrFailed(w: World, m: Model, steps: seq<Step>, c: Id)
    requires SafeRun(w, Start(m), steps) && Run(w, Start(m), steps).pc == Scan({}, {})
    ensures var s := Run(w, Start(m), steps);
            && Apply(w, s, EndScan).pc == Idle
            && (c in s.durable && c !in s.recent ==> if c in s.queue then s.queue[c] == Failed else c in s.emb)
  {
    NoLossRun(w, Start(m), steps);
    CompleteRun(w, Start(m), steps, c);
    assert Covered(Run(w, Start(m), steps), c);
  }

  predicate ByProcessor(step: Step) {
    !IsIngest(step) && !IsDelete(step)
  }

  ghost predicate Undisturbed(steps: seq<Step>) {
    forall i :: 0 <= i < |steps| ==> ByProcessor(steps[i])
  }

  ghost predicate OnlyProcessed(s: State, t: State) {
    && t.chunks == s.chunks && t.acked == s.acked && t.durable == s.durable && t.deleting == s.deleting
    && t.captured == s.captured && t.model == s.model
    && (s.recent == {} ==> t.recent == {})
  }

  lemma ScanFrame(s: State, step: Step)
    requires IsScan(step)
    ensures OnlyProcessed(s, ApplyScan(s, step))
  {
  }

  lemma BatchFrame(w: World, s: State, step: Step)
    requires step.EndScan? || step.Refuse? || step.Embed?
    ensures OnlyProcessed(s, ApplyBatch(w, s, step))
  {
  }

  lemma WriteFrame(w: World, s: State, step: Step)
    requires step.Mark? || step.Put? || step.AddVec? || step.Dequeue?
    ensures OnlyProcessed(s, ApplyBatch(w, s, step))
  {
  }

  lemma ProcessorStep(w: World, s: State, step: Step)
    requires ByProcessor(step)
    ensures OnlyProcessed(s, Apply(w, s, step))
  {
    if IsScan(step) {
      ScanFrame(s, step);
    } else if step.EndScan? || step.Refuse? || step.Embed? {
      BatchFrame(w, s, step);
    } else {
      WriteFrame(w, s, step);
    }
  }

  /** What the processor alone leaves as it was. */
  lemma {:induction false} ProcessorFrame(w: World, s: State, steps: seq<Step>)
    requires Undisturbed(steps)
    ensures OnlyProcessed(s, Run(w, s, steps))
    decreases steps
  {
    if steps != [] {
      assert ByProcessor(steps[0]);
      assert forall i :: 0 <= i < |steps[1..]| ==> steps[1..][i] == steps[i + 1];
      ProcessorStep(w, s, steps[0]);
      ProcessorFrame(w, Apply(w, s, steps[0]), steps[1..]);
    }
  }

  /** Whatever the index had come to, right after a restart every chunk stored and queued is in the queue,
      or in the index as its record says, and stays so under tidy steps. */
  lemma RestartRepairs(w: World, s: State, m: Model)
    requires NoLoss(s)
    ensures InvIndex(w, AfterRestart(s, m))
  {
    forall x ensures Handled(w, AfterRestart(s, m), x) {
      assert Covered(s, x);
    }
  }

  lemma UndisturbedIsPlain(steps: seq<Step>)
    requires Undisturbed(steps)
    ensures AllPlain(steps)
  {
    forall i | 0 <= i < |steps| ensures Plain(steps[i]) {
      assert ByProcessor(steps[i]);
    }
  }

  /** Recovery. From any state that a safe run reaches, a crash anywhere, a restart with any model, and a
      drain that nothing disturbs leave every acknowledged chunk either marked failed, or off the queue
      with an embedding whose vector the index holds. */
  lemma RecoversAndDrains(w: World, m: Model, run: seq<Step>, next: Model, drain: seq<Step>, c: Id)
    requires SafeRun(w, Start(m), run) && Undisturbed(drain)
    requires Run(w, AfterRestart(Run(w, Start(m), run), next), drain).pc == Scan({}, {})
    ensures var s := Run(w, Start(m), run); var t := Run(w, AfterRestart(s, next), drain);
            c in s.acked ==>
              c in t.chunks && if c in t.queue then t.queue[c] == Failed
                               else c in t.emb && c in t.vec && t.vec[c] == t.emb[c].vec
  {
    var s := Run(w, Start(m), run);
    var r := AfterRestart(s, next);
    var t := Run(w, r, drain);
    NoLossRun(w, Start(m), run);
    RestartRepairs(w, s, next);
    UndisturbedIsPlain(drain);
    PlainRun(w, r, drain);
    IndexRun(w, r, drain);
    CompleteRun(w, r, drain, c);
    ProcessorFrame(w, r, drain);
    assert Handled(w, t, c) && Covered(s, c);
  }

  // ----- The methods, as sequences of those steps -----

  /** What storing a document writes for its chunks, in order. */
  function StoreSteps(cs: seq<Id>): seq<Step> {
    if cs == [] then [] else StoreSteps(cs[..|cs| - 1]) + [WriteChunk(cs[|cs| - 1]), WriteQueue(cs[|cs| - 1])]
  }

  /** What deleting a document does to its chunks, in order. */
  function DeleteSteps(cs: seq<Id>): seq<Step> {
    if cs == [] then []
    else DeleteSteps(cs[..|cs| - 1]) + [DelChunk(cs[|cs| - 1]), DelEmb(cs[|cs| - 1]), DelVec(cs[|cs| - 1])]
  }

  lemma RunTwo(w: World, s: State, x: Step, y: Step)
    ensures Run(w, s, [x, y]) == Apply(w, Apply(w, s, x), y)
  {
    assert [x, y] == [x] + [y];
    RunAppend(w, s, [x], [y]);
    RunOne(w, s, x);
    RunOne(w, Apply(w, s, x), y);
  }

  lemma RunThree(w: World, s: State, x: Step, y: Step, z: Step)
    ensures Run(w, s, [x, y, z]) == Apply(w, Apply(w, Apply(w, s, x), y), z)
  {
    assert [x, y, z] == [x] + [y, z];
    RunAppend(w, s, [x], [y, z]);
    RunOne(w, s, x);
    RunTwo(w, Apply(w, s, x), y, z);
  }

  lemma StoreOne(w: World, s0: State, before: seq<Id>, c: Id)
    ensures Run(w, s0, StoreSteps(before + [c]))
            == AfterWriteQueue(AfterWriteChunk(Run(w, s0, StoreSteps(before)), c), c)
  {
    assert (before + [c])[..|before|] == before;
    RunAppend(w, s0, StoreSteps(before), [WriteChunk(c), WriteQueue(c)]);
    RunTwo(w, Run(w, s0, StoreSteps(before)), WriteChunk(c), WriteQueue(c));
  }

  /** A chunk removed by a deletion that finds it and runs to its end. */
  function AfterDeletion(s: State, c: Id): State {
    AfterDelVec(AfterDelEmb(AfterDelChunk(s, c), c), c)
  }

  lemma DeleteOne(w: World, s0: State, before: seq<Id>, c: Id)
    requires var s := Run(w, s0, DeleteSteps(before)); c in s.chunks && c !in s.deleting
    ensures Run(w, s0, DeleteSteps(before + [c])) == AfterDeletion(Run(w, s0, DeleteSteps(before)), c)
  {
    assert (before + [c])[..|before|] == before;
    RunAppend(w, s0, DeleteSteps(before), [DelChunk(c), DelEmb(c), DelVec(c)]);
    RunThree(w, Run(w, s0, DeleteSteps(before)), DelChunk(c), DelEmb(c), DelVec(c));
  }

  ghost predicate Distinct(cs: seq<Id>) {
    forall i, j :: 0 <= i < j < |cs| ==> cs[i] != cs[j]
  }

  /** Stored chunks, none of which another deletion has in hand. */
  ghost predicate Deletable(s: State, cs: seq<Id>) {
    Distinct(cs) && forall i :: 0 <= i < |cs| ==> cs[i] in s.chunks && cs[i] !in s.deleting
  }

  ghost predicate Gone(s: State, c: Id) {
    c !in s.chunks && c !in s.emb && c !in s.vec && c !in s.durable && c !in s.acked
  }

  /** Once deletion returns, nothing of its chunks is left but queue records, which a scan drops; and no
      other chunk is gone. */
  lemma {:induction false} DeletedIsGone(w: World, s: State, cs: seq<Id>)
    requires Deletable(s, cs)
    ensures var t := Run(w, s, DeleteSteps(cs));
            && (forall c :: c in cs ==> Gone(t, c))
            && t.chunks == s.chunks - (set c | c in cs) && t.deleting == s.deleting && t.queue == s.queue
    decreases |cs|
  {
    if cs != [] {
      var init, c := cs[..|cs| - 1], cs[|cs| - 1];
      DeletedIsGone(w, s, init);
      assert cs == init + [c] && c !in init;
      DeleteOne(w, s, init, c);
      OneMoreGone(Run(w, s, DeleteSteps(init)), s, init, c);
    }
  }

  lemma OneMoreGone(t: State, s: State, init: seq<Id>, c: Id)
    requires (forall x :: x in init ==> Gone(t, x)) && c !in t.deleting
    requires t.chunks == s.chunks - (set x | x in init)
    ensures forall x :: x in init + [c] ==> Gone(AfterDeletion(t, c), x)
    ensures AfterDeletion(t, c).chunks == s.chunks - (set x | x in init + [c])
    ensures AfterDeletion(t, c).deleting == t.deleting
  {
  }

  lemma StillDeletable(w: World, s: State, cs: seq<Id>, i: nat)
    requires Deletable(s, cs) && i < |cs|
    ensures var t := Run(w, s, DeleteSteps(cs[..i])); cs[i] in t.chunks && cs[i] !in t.deleting
  {
    DeletedIsGone(w, s, cs[..i]);
    assert cs[i] !in cs[..i];
  }

  /** Once storing returns, all its chunks may be acknowledged. */
  lemma {:induction false} StoredMayBeAcked(w: World, s: State, cs: seq<Id>)
    ensures var t := Run(w, s, StoreSteps(cs)); forall c :: c in cs ==> c in t.chunks && c in t.durable && c in t.queue
    decreases |cs|
  {
    if cs != [] {
      var init, c := cs[..|cs| - 1], cs[|cs| - 1];
      StoredMayBeAcked(w, s, init);
      StoreOne(w, s, init, c);
      assert cs == init + [c];
    }
  }

  class Vault {
    const w: World
    var chunks: set<Id>
    var emb: map<Id, Rec>
    var queue: map<Id, Status>
    var vec: map<Id, Vec>
    ghost var rest: State

    /** The stored fields, with the rest of the protocol's state. */
    ghost function View(): State
      reads this
    {
      rest.(chunks := chunks, emb := emb, queue := queue, vec := vec)
    }

    constructor (w: World, m: Model)
      ensures View() == Start(m) && this.w == w
    {
      this.w := w;
      chunks, emb, queue, vec, rest := {}, map[], map[], map[], Start(m);
    }

    /** Writes each chunk, then its queue record. */
    method StoreDocument(cs: seq<Id>)
      modifies this
      ensures View() == Run(w, old(View()), StoreSteps(cs))
    {
      for i := 0 to |cs|
        invariant View() == Run(w, old(View()), StoreSteps(cs[..i]))
      {
        StoreOne(w, old(View()), cs[..i], cs[i]);
        assert cs[..i + 1] == cs[..i] + [cs[i]];
        rest := AfterWriteQueue(AfterWriteChunk(View(), cs[i]), cs[i]);
        chunks := chunks + {cs[i]};
        queue := queue[cs[i] := Pending];
      }
      assert cs[..|cs|] == cs;
    }

    /** Removes each chunk that the deletion's scan found: its record, its embedding, its vector. */
    method DeleteChunks(cs: seq<Id>)
      requires Deletable(View(), cs)
      modifies this
      ensures View() == Run(w, old(View()), DeleteSteps(cs))
    {
      for i := 0 to |cs|
        invariant View() == Run(w, old(View()), DeleteSteps(cs[..i]))
      {
        StillDeletable(w, old(View()), cs, i);
        DeleteOne(w, old(View()), cs[..i], cs[i]);
        assert cs[..i + 1] == cs[..i] + [cs[i]];
        rest := AfterDeletion(View(), cs[i]);
        chunks := chunks - {cs[i]};
        emb := emb - {cs[i]};
        vec := vec - {cs[i]};
      }
      assert cs[..|cs|] == cs;
    }

    /** Seeds the vector index from the stored records, when the process starts. */
    method LoadIndex(ghost m: Model)
      modifies this
      ensures View() == Apply(w, old(View()), Restart(m))
    {
      vec := map[];
      var left: set<Id> := emb.Keys;
      while left != {}
        invariant left <= emb.Keys && emb == old(emb) && chunks == old(chunks) && queue == old(queue)
        invariant rest == old(rest)
        invariant vec.Keys == emb.Keys - left
        invariant forall c :: c in vec ==> vec[c] == emb[c].vec
        decreases left
      {
        var c: Id :| c in left;
        vec := vec[c := emb[c].vec];
        left := left - {c};
      }
      assert vec == Image(emb);
      rest := AfterRestart(old(View()), m);
    }
  }
}
