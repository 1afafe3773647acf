/** The life of one document's record and its DELETED and EMBEDDED events
    (internal/pipeline/delete.go, workers.go, reingest.go, reprocess.go, pipeline.go). Deletes and the
    read-modify-writes of the workers hold the pipeline mutex; a delete also holds the document's lock;
    storing a document holds neither. Every access is a step of its own. */
module Lifecycle {
  datatype Kind = Plain | Reingest

  /** How far the holder of the document's lock has come. */
  datatype Stage = Start | Captured | Done

  datatype Lock = Unlocked | Held(kind: Kind, stage: Stage)

  /** Who is inside the pipeline mutex. A worker has read the record (`found`), and may have written it
      back; one that marks the document embedded publishes at the end. A delete has looked, and may have
      removed the record. */
  datatype Mutex =
    | Free
    | Worker(marks: bool, found: bool, wrote: bool)
    | Deleter(kind: Kind, suppress: bool, found: bool, removed: bool)

  /** What can be observed, in order. `Looked` is a delete's own reading of the record. */
  datatype Event = Stored | Written | Looked(kind: Kind, found: bool) | Removed | Deleted(kind: Kind) | Embedded

  datatype State = State(record: bool, flag: bool, lock: Lock, mu: Mutex, log: seq<Event>)

  datatype Step =
    | Store
    | Acquire(kind: Kind)
    | Capture
    | Look
    | Remove
    | Publish
    | Release
    | WorkerGet(marks: bool)
    | WorkerSet
    | WorkerEnd

  const Initial: State := State(false, false, Unlocked, Free, [])

  /** The holder of the lock has reached its delete. */
  predicate MayDelete(lock: Lock) {
    lock == Held(Plain, Start) || lock == Held(Reingest, Captured)
  }

  /** A step that is not possible changes nothing. */
  function Apply(s: State, step: Step): State {
    match step
    // storeDocument writes the record without the mutex (pipeline.go:486)
    case Store => s.(record := true, log := s.log + [Stored])
    case Acquire(kind) => if s.lock == Unlocked then s.(lock := Held(kind, Start)) else s
    // captureReingest marks the document (reingest.go:35-41)
    case Capture =>
      if s.lock == Held(Reingest, Start) && s.mu == Free then s.(flag := true, lock := Held(Reingest, Captured)) else s
    // deleteDocLocked: takes the mark, and looks whether there is a record (delete.go:86-97)
    case Look =>
      if MayDelete(s.lock) && s.mu == Free then
        s.(flag := false, mu := Deleter(s.lock.kind, s.flag, s.record, false),
           log := s.log + [Looked(s.lock.kind, s.record)])
      else s
    // the durable delete (delete.go:102)
    case Remove =>
      if s.mu.Deleter? && !s.mu.removed then
        s.(record := false, mu := Deleter(s.mu.kind, s.mu.suppress, s.mu.found, true), log := s.log + [Removed])
      else s
    // DELETED, when a record was found and the mark was not set (delete.go:112-114)
    case Publish =>
      if s.mu.Deleter? && s.mu.removed then
        s.(mu := Free, lock := Held(s.mu.kind, Done),
           log := if s.mu.found && !s.mu.suppress then s.log + [Deleted(s.mu.kind)] else s.log)
      else s
    case Release => if s.lock.Held? && s.lock.stage == Done then s.(lock := Unlocked) else s
    // markStatus, setEnrichment, captionImages (workers.go:252-321)
    case WorkerGet(marks) => if s.mu == Free then s.(mu := Worker(marks, s.record, false)) else s
    case WorkerSet =>
      if s.mu.Worker? && s.mu.found && !s.mu.wrote then
        s.(record := true, mu := Worker(s.mu.marks, true, true), log := s.log + [Written])
      else s
    case WorkerEnd =>
      if s.mu.Worker? && s.mu.found == s.mu.wrote then
        s.(mu := Free, log := if s.mu.found && s.mu.marks then s.log + [Embedded] else s.log)
      else s
  }

  function Run(s: State, steps: seq<Step>): State
    decreases steps
  {
    if steps == [] then s else Run(Apply(s, steps[0]), steps[1..])
  }

  // ----- Reading a log -----

  /** There is a record: something was stored, and nothing removed since. */
  function Live(log: seq<Event>): bool {
    if log == [] then false
    else match log[|log| - 1]
      case Stored => true
      case Removed => false
      case _ => Live(log[..|log| - 1])
  }

  /** A removal, followed by nothing but stores. */
  function EndsRemoved(log: seq<Event>): bool {
    log != [] && (log[|log| - 1] == Removed || (log[|log| - 1] == Stored && EndsRemoved(log[..|log| - 1])))
  }

  /** How often a plain delete found a record, and how often DELETED was published. */
  function PlainFound(log: seq<Event>): nat {
    if log == [] then 0
    else PlainFound(log[..|log| - 1]) + (if log[|log| - 1] == Looked(Plain, true) then 1 else 0)
  }

  function DeletedCount(log: seq<Event>): nat {
    if log == [] then 0
    else DeletedCount(log[..|log| - 1]) + (if log[|log| - 1].Deleted? then 1 else 0)
  }

  lemma Snoc(log: seq<Event>, e: Event)
    ensures (log + [e])[..|log|] == log
    ensures Live(log + [e]) == (match e case Stored => true case Removed => false case _ => Live(log))
    ensures EndsRemoved(log + [e]) == (e == Removed || (e == Stored && EndsRemoved(log)))
    ensures PlainFound(log + [e]) == PlainFound(log) + if e == Looked(Plain, true) then 1 else 0
    ensures DeletedCount(log + [e]) == DeletedCount(log) + if e.Deleted? then 1 else 0
  {
    assert (log + [e])[..|log|] == log;
  }

  lemma {:induction false} LiveMeans(log: seq<Event>)
    ensures Live(log) <==>
              exists k :: 0 <= k < |log| && log[k] == Stored && forall m :: k < m < |log| ==> log[m] != Removed
    decreases |log|
  {
    if log != [] {
      var n := |log| - 1;
      var init := log[..n];
      LiveMeans(init);
      if log[n] == Stored {
        assert 0 <= n < |log| && log[n] == Stored;
      } else if log[n] != Removed && Live(init) {
        var k :| 0 <= k < n && init[k] == Stored && forall m :: k < m < n ==> init[m] != Removed;
        assert log[k] == Stored && forall m :: k < m < |log| ==> log[m] != Removed;
      } else if log[n] != Removed {
        forall k | 0 <= k < |log| && log[k] == Stored ensures exists m :: k < m < |log| && log[m] == Removed {
          assert init[k] == Stored;
          var m :| k < m < n && init[m] == Removed;
          assert log[m] == Removed;
        }
      }
    }
  }

  // ----- The invariant -----

  ghost predicate EventRight(log: seq<Event>, i: nat)
    requires i < |log|
  {
    match log[i]
    case Written => Live(log[..i])
    case Embedded => Live(log[..i])
    case Deleted(kind) => kind == Plain && EndsRemoved(log[..i])
    case _ => true
  }

  ghost predicate Inv(s: State) {
    && s.record == Live(s.log)
    && (forall i :: 0 <= i < |s.log| ==> EventRight(s.log, i))
    && (s.flag ==> s.lock == Held(Reingest, Captured) && !s.mu.Deleter?)
    && (s.lock == Held(Reingest, Captured) && !s.mu.Deleter? ==> s.flag)
    && (match s.mu
        case Free => true
        case Worker(_, found, wrote) => (found ==> Live(s.log)) && (wrote ==> found)
        case Deleter(kind, suppress, found, removed) =>
          && s.lock.Held? && s.lock.kind == kind && MayDelete(s.lock)
          && suppress == (kind == Reingest)
          && (removed ==> EndsRemoved(s.log)))
    && PlainFound(s.log) == DeletedCount(s.log) + (if s.mu.Deleter? && s.mu.kind == Plain && s.mu.found then 1 else 0)
  }

  lemma EventsKept(log: seq<Event>, e: Event)
    requires forall i :: 0 <= i < |log| ==> EventRight(log, i)
    requires match e
      case Written => Live(log)
      case Embedded => Live(log)
      case Deleted(kind) => kind == Plain && EndsRemoved(log)
      case _ => true
    ensures forall i :: 0 <= i < |log + [e]| ==> EventRight(log + [e], i)
  {
    var more := log + [e];
    forall i | 0 <= i < |more| ensures EventRight(more, i) {
      assert more[..i] == log[..i];
      if i < |log| {
        assert EventRight(log, i);
      } else {
        assert log[..i] == log;
      }
    }
  }

  lemma InvDelete(s: State, step: Step)
    requires Inv(s) && (step.Look? || step.Remove? || step.Publish?)
    ensures Inv(Apply(s, step))
  {
    var t := Apply(s, step);
    if t.log != s.log {
      var e := t.log[|s.log|];
      assert t.log == s.log + [e];
      Snoc(s.log, e);
      EventsKept(s.log, e);
    }
  }

  lemma InvStore(s: State)
    requires Inv(s)
    ensures Inv(Apply(s, Store))
  {
    Snoc(s.log, Stored);
    EventsKept(s.log, Stored);
  }

  lemma InvLock(s: State, step: Step)
    requires Inv(s) && (step.Acquire? || step.Capture? || step.Release?)
    ensures Inv(Apply(s, step))
  {
    assert Apply(s, step).log == s.log;
  }

  lemma InvWorker(s: State, step: Step)
    requires Inv(s) && (step.WorkerGet? || step.WorkerSet? || step.WorkerEnd?)
    ensures Inv(Apply(s, step))
  {
    match step
    case WorkerGet(_) => assert Apply(s, step).log == s.log;
    case WorkerSet =>
      if s.mu.Worker? && s.mu.found && !s.mu.wrote {
        Snoc(s.log, Written);
        EventsKept(s.log, Written);
      }
    case WorkerEnd =>
      if s.mu.Worker? && s.mu.found && s.mu.wrote && s.mu.marks {
        Snoc(s.log, Embedded);
        EventsKept(s.log, Embedded);
      }
  }

  lemma {:induction false} InvRun(s: State, steps: seq<Step>)
    requires Inv(s)
    ensures Inv(Run(s, steps))
    decreases steps
  {
    if steps != [] {
      match steps[0] {
        case Store => InvStore(s);
        case Look => InvDelete(s, steps[0]);
        case Remove => InvDelete(s, steps[0]);
        case Publish => InvDelete(s, steps[0]);
        case Acquire(_) => InvLock(s, steps[0]);
        case Capture => InvLock(s, steps[0]);
        case Release => InvLock(s, steps[0]);
        case WorkerGet(_) => InvWorker(s, steps[0]);
        case WorkerSet => InvWorker(s, steps[0]);
        case WorkerEnd => InvWorker(s, steps[0]);
      }
      InvRun(Apply(s, steps[0]), steps[1..]);
    }
  }

  // ----- What every interleaving guarantees -----

  /** The mark that suppresses DELETED is set exactly while a re-ingest holds the document's lock between
      its capture and its delete, so only that re-ingest's own delete can take it. */
  lemma MarkOnlyUnderLock(steps: seq<Step>)
    ensures var s := Run(Initial, steps);
            && (s.flag <==> s.lock == Held(Reingest, Captured) && !s.mu.Deleter?)
            && (s.mu.Deleter? ==> s.lock.Held? && (s.mu.suppress <==> s.lock.kind == Reingest))
  {
    InvRun(Initial, steps);
  }

  /** Each plain delete that finds a record publishes exactly one DELETED, and nothing else publishes any. */
  lemma OneDeletedEach(steps: seq<Step>)
    ensures var s := Run(Initial, steps);
            && (!s.mu.Deleter? ==> DeletedCount(s.log) == PlainFound(s.log))
            && forall i :: 0 <= i < |s.log| && s.log[i].Deleted? ==> s.log[i].kind == Plain
  {
    InvRun(Initial, steps);
    var s := Run(Initial, steps);
    forall i | 0 <= i < |s.log| && s.log[i].Deleted? ensures s.log[i].kind == Plain {
      assert EventRight(s.log, i);
    }
  }

  /** Between its removal and its DELETED there can only be stores; and the record is gone right after
      DELETED iff there was none. */
  lemma GoneAfterDeletedIff(steps: seq<Step>, i: nat)
    requires i < |Run(Initial, steps).log| && Run(Initial, steps).log[i].Deleted?
    ensures var log := Run(Initial, steps).log;
            && i > 0 && (log[i - 1] == Removed || log[i - 1] == Stored)
            && (!Live(log[..i + 1]) <==> log[i - 1] == Removed)
  {
    InvRun(Initial, steps);
    var log := Run(Initial, steps).log;
    assert EventRight(log, i);
    assert log[..i + 1][..i] == log[..i];
    assert log[..i][i - 1] == log[i - 1];
  }

  /** After a DELETED that follows its removal directly, no step writes the record or publishes EMBEDDED
      before the next store. */
  lemma NoResurrection(steps: seq<Step>, i: nat, j: nat) returns (k: nat)
    requires i < j < |Run(Initial, steps).log|
    requires Run(Initial, steps).log[i].Deleted? && i > 0 && Run(Initial, steps).log[i - 1] == Removed
    requires Run(Initial, steps).log[j] == Written || Run(Initial, steps).log[j] == Embedded
    ensures i < k < j && Run(Initial, steps).log[k] == Stored
  {
    InvRun(Initial, steps);
    var log := Run(Initial, steps).log;
    assert EventRight(log, j);
    LiveMeans(log[..j]);
    k :| 0 <= k < j && log[..j][k] == Stored && forall m :: k < m < j ==> log[..j][m] != Removed;
    assert log[k] == Stored;
    assert log[..j][i - 1] == log[i - 1];
  }

  // ----- What a store without the mutex can do -----

  /** From any state in which a delete has removed the record and a store has put one back before
      DELETED: DELETED comes after that store, and a worker then publishes EMBEDDED with no store
      between. */
  lemma StoreInsideDeleteResurrects(s: State)
    requires s.mu.Deleter? && s.mu.removed && s.mu.found && !s.mu.suppress && s.record
    ensures Run(s, [Publish, WorkerGet(true), WorkerSet, WorkerEnd]).log
            == s.log + [Deleted(s.mu.kind), Written, Embedded]
  {
    var a := Apply(s, Publish);
    var b := Apply(a, WorkerGet(true));
    var c := Apply(b, WorkerSet);
    assert [Publish, WorkerGet(true), WorkerSet, WorkerEnd][1..] == [WorkerGet(true), WorkerSet, WorkerEnd];
    assert [WorkerGet(true), WorkerSet, WorkerEnd][1..] == [WorkerSet, WorkerEnd];
    assert [WorkerSet, WorkerEnd][1..] == [WorkerEnd];
    assert Run(c, [WorkerEnd]) == Apply(c, WorkerEnd);
    assert a.log == s.log + [Deleted(s.mu.kind)];
    assert b.mu == Worker(true, true, false);
  }

  /** Such a state is reached. */
  lemma StoreInsideDelete()
    ensures var s := Run(Initial, [Store, Acquire(Plain), Look, Remove, Store]);
            s.mu.Deleter? && s.mu.removed && s.mu.found && !s.mu.suppress && s.record
  {
    var steps := [Store, Acquire(Plain), Look, Remove, Store];
    var s1 := Apply(Initial, Store);
    var s2 := Apply(s1, Acquire(Plain));
    var s3 := Apply(s2, Look);
    var s4 := Apply(s3, Remove);
    assert steps[1..] == [Acquire(Plain), Look, Remove, Store];
    assert steps[1..][1..] == [Look, Remove, Store];
    assert steps[1..][1..][1..] == [Remove, Store];
    assert steps[1..][1..][1..][1..] == [Store];
    assert Run(s4, [Store]) == Apply(s4, Store);
  }

  ghost predicate StoredSinceLook(log: seq<Event>)
    decreases |log|
  {
    log != [] && (log[|log| - 1] == Stored || (!log[|log| - 1].Looked? && StoredSinceLook(log[..|log| - 1])))
  }

  /** A delete about to remove a record publishes no DELETED for it iff it is a re-ingest's, or it found
      none when it looked; and in the latter case the record was stored since. */
  lemma SilentRemovalIff(steps: seq<Step>)
    requires var s := Run(Initial, steps); s.mu.Deleter? && !s.mu.removed && s.record
    ensures var s := Run(Initial, steps); var done := Apply(Apply(s, Remove), Publish);
            && (done.log == s.log + [Removed] || done.log == s.log + [Removed, Deleted(Plain)])
            && (done.log == s.log + [Removed] <==> s.mu.kind == Reingest || !s.mu.found)
            && (!s.mu.found ==> StoredSinceLook(s.log))
  {
    LookRun(Initial, steps);
    InvRun(Initial, steps);
    var s := Run(Initial, steps);
    assert s.log + [Removed] + [Deleted(Plain)] == s.log + [Removed, Deleted(Plain)];
  }

  ghost predicate LookInv(s: State) {
    s.mu.Deleter? && !s.mu.removed && !s.mu.found ==> (s.record <==> StoredSinceLook(s.log))
  }

  lemma LookStep(s: State, step: Step)
    requires LookInv(s)
    ensures LookInv(Apply(s, step))
  {
    var t := Apply(s, step);
    if t.log != s.log {
      assert t.log[..|s.log|] == s.log;
    }
  }

  lemma {:induction false} LookRun(s: State, steps: seq<Step>)
    requires LookInv(s)
    ensures LookInv(Run(s, steps))
    decreases steps
  {
    if steps != [] {
      LookStep(s, steps[0]);
      LookRun(Apply(s, steps[0]), steps[1..]);
    }
  }

  // ----- Operations that nothing interrupts -----

  /** No delete or re-ingest holds the document, and nobody the mutex. */
  predicate AtRest(s: State) {
    s.lock == Unlocked && s.mu == Free && !s.flag
  }

  lemma RunMore(s: State, x: Step, more: seq<Step>)
    ensures Run(s, [x] + more) == Run(Apply(s, x), more)
  {
    assert ([x] + more)[1..] == more;
  }

  /** A plain delete removes the record, and publishes DELETED iff there was one. */
  lemma PlainDelete(s: State)
    requires AtRest(s)
    ensures var t := Run(s, [Acquire(Plain), Look, Remove, Publish, Release]);
            && AtRest(t) && !t.record
            && t.log == s.log + [Looked(Plain, s.record), Removed] + if s.record then [Deleted(Plain)] else []
  {
    var a := s.(lock := Held(Plain, Start));
    RunMore(s, Acquire(Plain), [Look, Remove, Publish, Release]);
    assert [Acquire(Plain)] + [Look, Remove, Publish, Release] == [Acquire(Plain), Look, Remove, Publish, Release];
    Deletes(a, Plain);
  }

  /** The part of a delete under the document's lock. */
  lemma Deletes(s: State, kind: Kind)
    requires s.lock == (if kind == Plain then Held(Plain, Start) else Held(Reingest, Captured)) && s.mu == Free
    requires s.flag <==> kind == Reingest
    ensures var t := Run(s, [Look, Remove, Publish, Release]);
            && AtRest(t) && !t.record
            && t.log == s.log + [Looked(kind, s.record), Removed]
                        + if s.record && kind == Plain then [Deleted(Plain)] else []
  {
    var a := Apply(s, Look);
    var b := Apply(a, Remove);
    var c := Apply(b, Publish);
    RunMore(s, Look, [Remove, Publish, Release]);
    RunMore(a, Remove, [Publish, Release]);
    RunMore(b, Publish, [Release]);
    RunMore(c, Release, []);
    assert [Look] + [Remove, Publish, Release] == [Look, Remove, Publish, Release];
    assert [Remove] + [Publish, Release] == [Remove, Publish, Release];
    assert [Publish] + [Release] == [Publish, Release] && [Release] + [] == [Release];
    assert b.log == s.log + [Looked(kind, s.record), Removed];
  }

  /** A re-ingest replaces the record, and publishes no DELETED. */
  lemma ReingestIsSilent(s: State)
    requires AtRest(s)
    ensures var t := Run(s, [Acquire(Reingest), Capture, Look, Remove, Publish, Release]);
            AtRest(t) && !t.record && t.log == s.log + [Looked(Reingest, s.record), Removed]
    ensures Apply(s, Store).record && Apply(s, Store).log == s.log + [Stored]
  {
    var a := Apply(s, Acquire(Reingest));
    var b := Apply(a, Capture);
    RunMore(s, Acquire(Reingest), [Capture, Look, Remove, Publish, Release]);
    RunMore(a, Capture, [Look, Remove, Publish, Release]);
    assert [Acquire(Reingest)] + [Capture, Look, Remove, Publish, Release]
           == [Acquire(Reingest), Capture, Look, Remove, Publish, Release];
    assert [Capture] + [Look, Remove, Publish, Release] == [Capture, Look, Remove, Publish, Release];
    Deletes(b, Reingest);
  }

  /** A worker rewrites the record it finds, and publishes EMBEDDED when it marks it so; without a record it
      does nothing. */
  lemma WorkerWrites(s: State, marks: bool)
    requires s.mu == Free
    ensures s.record ==>
              var t := Run(s, [WorkerGet(marks), WorkerSet, WorkerEnd]);
              t == s.(log := t.log) && t.log == s.log + [Written] + if marks then [Embedded] else []
    ensures !s.record ==>
              Run(s, [WorkerGet(marks), WorkerEnd]) == s && Run(s, [WorkerGet(marks), WorkerSet, WorkerEnd]) == s
  {
    var a := Apply(s, WorkerGet(marks));
    var b := Apply(a, WorkerSet);
    RunMore(s, WorkerGet(marks), [WorkerSet, WorkerEnd]);
    RunMore(s, WorkerGet(marks), [WorkerEnd]);
    RunMore(a, WorkerSet, [WorkerEnd]);
    RunMore(a, WorkerEnd, []);
    RunMore(b, WorkerEnd, []);
    assert [WorkerGet(marks)] + [WorkerSet, WorkerEnd] == [WorkerGet(marks), WorkerSet, WorkerEnd];
    assert [WorkerGet(marks)] + [WorkerEnd] == [WorkerGet(marks), WorkerEnd];
    assert [WorkerSet] + [WorkerEnd] == [WorkerSet, WorkerEnd] && [WorkerEnd] + [] == [WorkerEnd];
  }

  /** While one holds the document's lock, another does not get it; while one holds the mutex, no other
      delete, re-ingest or worker gets that. */
  lemma OthersWait(s: State, kind: Kind, marks: bool)
    ensures s.lock != Unlocked ==> Apply(s, Acquire(kind)) == s
    ensures s.mu != Free ==> Apply(s, Look) == s && Apply(s, Capture) == s && Apply(s, WorkerGet(marks)) == s
  {
  }
}
