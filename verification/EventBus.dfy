/** The document-event bus (internal/events/bus.go): one buffered channel per subscriber, a
    publisher that never blocks, and removal that never races a send. */
module EventBus {

  type SubId = nat

  /** One subscriber's channel. Its buffer is what was sent and not yet taken; `lost` lists the
      sequence numbers the dropped counter counted. */
  datatype Chan = Chan(cap: nat, sent: seq<nat>, taken: nat, lost: seq<nat>, open: bool) {
    function Buffered(): int { |sent| - taken }

    /** The non-blocking send. */
    function Offer(e: nat): Chan {
      if Buffered() < cap then this.(sent := sent + [e]) else this.(lost := lost + [e])
    }

    /** How often an event was enqueued or counted as dropped. */
    function Handled(e: nat): nat { multiset(sent)[e] + multiset(lost)[e] }
  }

  const DEFAULT_BUFFER: nat := 64

  function Capacity(buf: int): (cap: nat)
    ensures cap >= 1
  {
    if buf <= 0 then DEFAULT_BUFFER else buf
  }

  // ----- Every interleaving: publishers, subscribers, unsubscribes and close -----

  /** A publisher between taking its number and releasing the read lock. */
  datatype Flight = Numbered | Fanning(remaining: set<SubId>)

  /** A subscriber's progress through Subscribe, and then out of the bus. */
  datatype Stage = Made | Inserted | Ready(baseline: nat) | Gone(baseline: nat)

  datatype State = State(
    next: nat,
    subs: set<SubId>,
    closed: bool,
    chans: map<SubId, Chan>,
    stages: map<SubId, Stage>,
    flights: map<nat, Flight>,
    panicked: bool)

  /** The read lock is held by every publisher that is fanning out. */
  ghost predicate ReadLocked(flights: map<nat, Flight>) {
    exists e :: e in flights && flights[e].Fanning?
  }

  datatype Step =
    | Number                         // next.Add(1)
    | LockRead(e: nat)               // RLock and start ranging over the map
    | Send(e: nat, id: SubId)        // one iteration of the range loop
    | UnlockRead(e: nat)
    | MakeSub(id: SubId, buf: int)
    | Insert(id: SubId)              // the locked section of Subscribe
    | LoadBaseline(id: SubId)        // the load after it; Subscribe then returns
    | Unsubscribe(id: SubId)
    | CloseBus
    | Receive(id: SubId)
    | Idle

  const INIT := State(0, {}, false, map[], map[], map[], false)

  /** Closing a channel: closing a closed one panics. */
  function CloseChan(s: State, id: SubId): State
    requires id in s.chans
  {
    if s.chans[id].open then s.(chans := s.chans[id := s.chans[id].(open := false)])
    else s.(panicked := true)
  }

  ghost function Apply(s: State, step: Step): State {
    match step
    case Number => s.(next := s.next + 1, flights := s.flights[s.next + 1 := Numbered])
    case LockRead(e) =>
      if e in s.flights && s.flights[e].Numbered? then s.(flights := s.flights[e := Fanning(s.subs)]) else s
    case Send(e, id) =>
      if e in s.flights && s.flights[e].Fanning? && id in s.flights[e].remaining && id in s.chans then
        var s1 := s.(flights := s.flights[e := Fanning(s.flights[e].remaining - {id})]);
        if s.chans[id].open then s1.(chans := s.chans[id := s.chans[id].Offer(e)])
        else s1.(panicked := true)
      else s
    case UnlockRead(e) =>
      if e in s.flights && s.flights[e] == Fanning({}) then s.(flights := s.flights - {e}) else s
    case MakeSub(id, buf) =>
      if id in s.stages then s
      else s.(chans := s.chans[id := Chan(Capacity(buf), [], 0, [], true)], stages := s.stages[id := Made])
    case Insert(id) =>
      if id in s.stages && id in s.chans && s.stages[id].Made? && !ReadLocked(s.flights) then
        var s1 := s.(stages := s.stages[id := Inserted]);
        if s.closed then CloseChan(s1, id) else s1.(subs := s.subs + {id})
      else s
    case LoadBaseline(id) =>
      if id in s.stages && s.stages[id].Inserted? then s.(stages := s.stages[id := Ready(s.next + 1)]) else s
    case Unsubscribe(id) =>
      if id in s.stages && id in s.chans && s.stages[id].Ready? && !ReadLocked(s.flights) then
        var s1 := s.(stages := s.stages[id := Gone(s.stages[id].baseline)]);
        if id in s.subs then CloseChan(s1.(subs := s.subs - {id}), id) else s1
      else s
    case CloseBus =>
      if s.closed || ReadLocked(s.flights) then s
      else
        s.(closed := true,
           subs := {},
           panicked := s.panicked || exists id :: id in s.subs && id in s.chans && !s.chans[id].open,
           chans := map id | id in s.chans :: if id in s.subs then s.chans[id].(open := false) else s.chans[id])
    case Receive(id) =>
      if id in s.chans && s.chans[id].Buffered() > 0
      then s.(chans := s.chans[id := s.chans[id].(taken := s.chans[id].taken + 1)])
      else s
    case Idle => s
  }

  ghost function RunFrom(s: State, steps: seq<Step>): State
    decreases steps
  {
    if steps == [] then s else Apply(RunFrom(s, steps[..|steps| - 1]), steps[|steps| - 1])
  }

  ghost function Run(steps: seq<Step>): State {
    RunFrom(INIT, steps)
  }

  /** The event has not been offered to this subscriber yet. */
  ghost predicate Pending(s: State, e: nat, id: SubId) {
    e in s.flights && (s.flights[e].Numbered? || id in s.flights[e].remaining)
  }

  /** Handled at most once, only events that exist, and never one still on its way. */
  ghost predicate GoodChan(s: State, id: SubId, c: Chan) {
    forall e: nat :: c.Handled(e) <= 1 && (c.Handled(e) == 1 ==> 1 <= e <= s.next && !Pending(s, e, id))
  }

  ghost predicate GoodStage(s: State, id: SubId) {
    && id in s.chans && id in s.stages
    && GoodChan(s, id, s.chans[id])
    && s.chans[id].taken <= |s.chans[id].sent| && s.chans[id].Buffered() <= s.chans[id].cap
    && match s.stages[id]
       case Made => s.chans[id].open && id !in s.subs
       case Inserted => true
       case Ready(baseline) => baseline <= s.next + 1
       case Gone(baseline) => id !in s.subs
  }

  ghost predicate Inv(s: State) {
    && !s.panicked
    && s.chans.Keys == s.stages.Keys
    && (s.closed ==> s.subs == {})
    && (forall id :: id in s.subs ==> id in s.chans && s.chans[id].open)
    && (forall id :: id in s.stages ==> GoodStage(s, id))
    && (forall e :: e in s.flights ==> 1 <= e <= s.next && (s.flights[e].Fanning? ==> s.flights[e].remaining <= s.subs))
  }

  /** For a live subscriber: each event from its baseline on is either still on its way to it
      or has been handled, and handled exactly once. */
  ghost predicate DeliveredTo(s: State, id: SubId) {
    id in s.subs && id in s.stages && id in s.chans && s.stages[id].Ready? ==>
      forall e: nat :: s.stages[id].baseline <= e <= s.next && !Pending(s, e, id) ==> s.chans[id].Handled(e) == 1
  }

  ghost predicate Delivered(s: State) {
    forall id :: id in s.subs ==> DeliveredTo(s, id)
  }

  lemma OfferHandles(c: Chan, e: nat)
    ensures forall x: nat :: c.Offer(e).Handled(x) == c.Handled(x) + (if x == e then 1 else 0)
  {
    assert multiset(c.sent + [e]) == multiset(c.sent) + multiset{e};
    assert multiset(c.lost + [e]) == multiset(c.lost) + multiset{e};
  }

  lemma NumberKeepsInv(s: State)
    requires Inv(s) && Delivered(s)
    ensures Inv(Apply(s, Number)) && Delivered(Apply(s, Number))
  {
    var s' := Apply(s, Number);
    forall id | id in s'.stages ensures GoodStage(s', id) {
      assert GoodStage(s, id);
    }
    forall id | id in s'.subs ensures DeliveredTo(s', id) {
      assert DeliveredTo(s, id);
    }
  }

  lemma LockKeepsInv(s: State, e: nat)
    requires Inv(s) && Delivered(s)
    ensures Inv(Apply(s, LockRead(e))) && Delivered(Apply(s, LockRead(e)))
    ensures Inv(Apply(s, UnlockRead(e))) && Delivered(Apply(s, UnlockRead(e)))
  {
    forall s' | s' == Apply(s, LockRead(e)) || s' == Apply(s, UnlockRead(e)) ensures Inv(s') && Delivered(s') {
      forall id | id in s'.stages ensures GoodStage(s', id) {
        assert GoodStage(s, id);
      }
      forall id | id in s'.subs ensures DeliveredTo(s', id) {
        assert DeliveredTo(s, id);
      }
    }
  }

  lemma SameLog(c: Chan, c': Chan)
    requires c'.sent == c.sent && c'.lost == c.lost
    ensures forall e: nat :: c'.Handled(e) == c.Handled(e)
  {
  }

  lemma SendClearsPending(s: State, e: nat, id: SubId)
    requires e in s.flights && s.flights[e].Fanning? && id in s.flights[e].remaining && id in s.chans
    ensures Pending(s, e, id)
    ensures forall x: nat, k: SubId :: Pending(Apply(s, Send(e, id)), x, k) <==>
              Pending(s, x, k) && !(x == e && k == id)
  {
  }

  lemma SendKeepsStage(s: State, e: nat, id: SubId, k: SubId)
    requires GoodStage(s, k) && (id in s.chans ==> GoodStage(s, id))
    requires (id in s.subs ==> id in s.chans && s.chans[id].open)
    requires e in s.flights && s.flights[e].Fanning? && id in s.flights[e].remaining && id in s.subs
    requires 1 <= e <= s.next
    ensures GoodStage(Apply(s, Send(e, id)), k)
  {
    OfferHandles(s.chans[id], e);
    SendClearsPending(s, e, id);
  }

  lemma SendKeepsDelivered(s: State, e: nat, id: SubId, k: SubId)
    requires DeliveredTo(s, k) && GoodStage(s, id)
    requires e in s.flights && s.flights[e].Fanning? && id in s.flights[e].remaining && id in s.subs && s.chans[id].open
    ensures DeliveredTo(Apply(s, Send(e, id)), k)
  {
    OfferHandles(s.chans[id], e);
    SendClearsPending(s, e, id);
    assert GoodStage(s, id);
  }

  lemma SendKeepsInv(s: State, e: nat, id: SubId)
    requires Inv(s) && Delivered(s)
    ensures Inv(Apply(s, Send(e, id))) && Delivered(Apply(s, Send(e, id)))
  {
    var s' := Apply(s, Send(e, id));
    if s' != s {
      assert GoodStage(s, id) && id in s.subs && s.chans[id].open;
      assert s'.subs == s.subs && s'.stages == s.stages && s'.next == s.next;
      forall k | k in s'.stages ensures GoodStage(s', k) {
        assert GoodStage(s, k);
        SendKeepsStage(s, e, id, k);
      }
      forall k | k in s'.subs ensures DeliveredTo(s', k) {
        assert DeliveredTo(s, k);
        SendKeepsDelivered(s, e, id, k);
      }
    }
  }

  /** A step that concerns one subscriber only leaves the rest as it was. */
  lemma LocalStep(s: State, s': State, id: SubId)
    requires Inv(s) && Delivered(s)
    requires s'.next == s.next && s'.flights == s.flights && !s'.panicked && s'.closed == s.closed
    requires s'.chans.Keys == s'.stages.Keys == s.stages.Keys + {id}
    requires forall k :: k != id && k in s.stages ==> s'.stages[k] == s.stages[k] && s'.chans[k] == s.chans[k]
    requires s'.subs - {id} == s.subs - {id} && (s'.closed ==> s'.subs == {})
    requires id in s.subs && id !in s'.subs ==> !ReadLocked(s.flights)
    requires GoodStage(s', id) && (id in s'.subs ==> s'.chans[id].open && DeliveredTo(s', id))
    ensures Inv(s') && Delivered(s')
  {
    forall k | k in s'.stages ensures GoodStage(s', k) {
      if k != id {
        assert GoodStage(s, k);
        assert k in s'.subs <==> k in s.subs by { assert k in s'.subs - {id} <==> k in s.subs - {id}; }
      }
    }
    forall k | k in s'.subs ensures k in s'.chans && s'.chans[k].open && DeliveredTo(s', k) {
      if k != id {
        assert k in s.subs - {id};
        assert DeliveredTo(s, k);
      }
    }
    forall e | e in s'.flights ensures s'.flights[e].Fanning? ==> s'.flights[e].remaining <= s'.subs {
      if s.flights[e].Fanning? {
        forall k | k in s.flights[e].remaining ensures k in s'.subs {
          assert k in s.subs;
          assert k != id ==> k in s.subs - {id};
        }
      }
    }
  }

  lemma MakeKeepsInv(s: State, id: SubId, buf: int)
    requires Inv(s) && Delivered(s)
    ensures Inv(Apply(s, MakeSub(id, buf))) && Delivered(Apply(s, MakeSub(id, buf)))
  {
    var s' := Apply(s, MakeSub(id, buf));
    if s' != s {
      LocalStep(s, s', id);
    }
  }

  lemma InsertKeepsInv(s: State, id: SubId)
    requires Inv(s) && Delivered(s)
    ensures Inv(Apply(s, Insert(id))) && Delivered(Apply(s, Insert(id)))
  {
    var s' := Apply(s, Insert(id));
    if s' != s {
      assert GoodStage(s, id);
      SameLog(s.chans[id], s'.chans[id]);
      LocalStep(s, s', id);
    }
  }

  lemma LoadKeepsInv(s: State, id: SubId)
    requires Inv(s) && Delivered(s)
    ensures Inv(Apply(s, LoadBaseline(id))) && Delivered(Apply(s, LoadBaseline(id)))
  {
    var s' := Apply(s, LoadBaseline(id));
    if s' != s {
      assert GoodStage(s, id);
      LocalStep(s, s', id);
    }
  }

  lemma UnsubscribeKeepsInv(s: State, id: SubId)
    requires Inv(s) && Delivered(s)
    ensures Inv(Apply(s, Unsubscribe(id))) && Delivered(Apply(s, Unsubscribe(id)))
  {
    var s' := Apply(s, Unsubscribe(id));
    if s' != s {
      assert GoodStage(s, id);
      SameLog(s.chans[id], s'.chans[id]);
      LocalStep(s, s', id);
    }
  }

  lemma ReceiveKeepsInv(s: State, id: SubId)
    requires Inv(s) && Delivered(s)
    ensures Inv(Apply(s, Receive(id))) && Delivered(Apply(s, Receive(id)))
  {
    var s' := Apply(s, Receive(id));
    if s' != s {
      assert GoodStage(s, id);
      SameLog(s.chans[id], s'.chans[id]);
      assert id in s.subs ==> DeliveredTo(s, id);
      LocalStep(s, s', id);
    }
  }

  lemma CloseKeepsInv(s: State)
    requires Inv(s) && Delivered(s)
    ensures Inv(Apply(s, CloseBus)) && Delivered(Apply(s, CloseBus))
  {
    var s' := Apply(s, CloseBus);
    forall k | k in s'.stages ensures GoodStage(s', k) {
      assert GoodStage(s, k);
      SameLog(s.chans[k], s'.chans[k]);
    }
    if s' == s {
      forall k | k in s'.subs ensures DeliveredTo(s', k) { assert DeliveredTo(s, k); }
    }
  }

  lemma StepKeepsInv(s: State, step: Step)
    requires Inv(s) && Delivered(s)
    ensures Inv(Apply(s, step)) && Delivered(Apply(s, step))
  {
    match step
    case Number => NumberKeepsInv(s);
    case LockRead(e) => LockKeepsInv(s, e);
    case Send(e, id) => SendKeepsInv(s, e, id);
    case UnlockRead(e) => LockKeepsInv(s, e);
    case CloseBus => CloseKeepsInv(s);
    case MakeSub(id, buf) => MakeKeepsInv(s, id, buf);
    case Insert(id) => InsertKeepsInv(s, id);
    case LoadBaseline(id) => LoadKeepsInv(s, id);
    case Unsubscribe(id) => UnsubscribeKeepsInv(s, id);
    case Receive(id) => ReceiveKeepsInv(s, id);
    case Idle =>
  }

  lemma {:induction false} RunFromKeepsInv(s: State, steps: seq<Step>)
    requires Inv(s) && Delivered(s)
    ensures Inv(RunFrom(s, steps)) && Delivered(RunFrom(s, steps))
    decreases steps
  {
    if steps != [] {
      RunFromKeepsInv(s, steps[..|steps| - 1]);
      StepKeepsInv(RunFrom(s, steps[..|steps| - 1]), steps[|steps| - 1]);
    }
  }

  lemma RunKeepsInv(steps: seq<Step>)
    ensures Inv(Run(steps)) && Delivered(Run(steps))
  {
    RunFromKeepsInv(INIT, steps);
  }

  /** In every interleaving of publishers, subscribers, unsubscribes and close, no send hits a
      closed channel and no channel is closed twice: whoever is about to be sent an event, or to be closed,
      is open. A buffer never exceeds its capacity. */
  lemma NeverPanics(steps: seq<Step>, id: SubId)
    ensures !Run(steps).panicked
    ensures var s := Run(steps);
            forall e :: e in s.flights && s.flights[e].Fanning? && id in s.flights[e].remaining ==>
              id in s.chans && s.chans[id].open
    ensures var s := Run(steps);
            id in s.subs || (id in s.stages && s.stages[id].Made?) ==> id in s.chans && s.chans[id].open
    ensures id in Run(steps).chans ==> 0 <= Run(steps).chans[id].Buffered() <= Run(steps).chans[id].cap
  {
    RunKeepsInv(steps);
    assert id in Run(steps).stages ==> GoodStage(Run(steps), id);
  }

  /** Exactly once. An event numbered at or above the baseline Subscribe returned, once its fan-out is
      over, has been enqueued exactly once or counted dropped exactly once for every subscriber
      still registered; before that it has been neither. */
  lemma ExactlyOnce(steps: seq<Step>, id: SubId, e: nat)
    requires var s := Run(steps);
             && id in s.subs && id in s.stages && s.stages[id].Ready?
             && s.stages[id].baseline <= e <= s.next
    ensures var s := Run(steps);
            && id in s.chans
            && s.chans[id].Handled(e) == (if Pending(s, e, id) then 0 else 1)
            && (e !in s.flights ==> s.chans[id].Handled(e) == 1)
  {
    RunKeepsInv(steps);
    assert GoodStage(Run(steps), id);
  }

  /** Whatever was published before, during or after, nobody ever sees an event twice. */
  lemma AtMostOnce(steps: seq<Step>, id: SubId, e: nat)
    requires id in Run(steps).chans
    ensures Run(steps).chans[id].Handled(e) <= 1
    ensures e > Run(steps).next ==> Run(steps).chans[id].Handled(e) == 0
  {
    RunKeepsInv(steps);
    assert GoodStage(Run(steps), id);
  }

  /** A channel is open as long as its subscriber is joining or registered, and closed from then on. */
  ghost predicate OpenRight(s: State, id: SubId) {
    id in s.chans && id in s.stages ==> (s.chans[id].open <==> s.stages[id].Made? || id in s.subs)
  }

  lemma OpenStep(s: State, step: Step, id: SubId)
    requires Inv(s) && OpenRight(s, id)
    ensures OpenRight(Apply(s, step), id)
  {
    match step
    case Unsubscribe(k) => assert k in s.subs ==> s.chans[k].open;
    case Insert(k) => assert k in s.stages ==> GoodStage(s, k);
    case _ =>
  }

  lemma {:induction false} OpenIff(steps: seq<Step>, id: SubId)
    requires id in Run(steps).chans
    ensures var s := Run(steps); id in s.stages && (s.chans[id].open <==> s.stages[id].Made? || id in s.subs)
  {
    RunKeepsInv(steps);
    OpenRun(steps, id);
  }

  lemma {:induction false} OpenRun(steps: seq<Step>, id: SubId)
    ensures OpenRight(Run(steps), id)
    decreases steps
  {
    if steps != [] {
      var init := steps[..|steps| - 1];
      OpenRun(init, id);
      RunKeepsInv(init);
      OpenStep(Run(init), steps[|init|], id);
    }
  }

  /** Closing the bus, which waits for the publishers that are fanning out, closes every channel; whoever
      joins after that gets a closed one. */
  lemma CloseBusCloses(s: State, id: SubId, buf: int)
    requires Inv(s) && !ReadLocked(s.flights)
    ensures var t := Apply(s, CloseBus);
            && t.closed && t.subs == {} && (id in s.subs ==> id in t.chans && !t.chans[id].open)
            && (id !in s.stages ==>
                  var u := Apply(Apply(t, MakeSub(id, buf)), Insert(id)); id in u.chans && !u.chans[id].open)
  {
  }

  // ----- Which events are lost -----

  /** As many events wait in the subscriber's buffer as it holds. */
  ghost predicate Full(s: State, id: SubId) {
    id in s.chans && |s.chans[id].sent| - s.chans[id].taken >= s.chans[id].cap
  }

  /** The k-th step sends the event to the subscriber. */
  ghost predicate OfferedAt(s: State, step: Step, id: SubId, e: nat) {
    step == Send(e, id) && e in s.flights && s.flights[e].Fanning? && id in s.flights[e].remaining
  }

  ghost predicate LostAt(steps: seq<Step>, k: int, id: SubId, e: nat) {
    0 <= k < |steps| && OfferedAt(Run(steps[..k]), steps[k], id, e) && Full(Run(steps[..k]), id)
  }

  ghost predicate SentAt(steps: seq<Step>, k: int, id: SubId, e: nat) {
    0 <= k < |steps| && OfferedAt(Run(steps[..k]), steps[k], id, e) && !Full(Run(steps[..k]), id)
  }

  /** A send puts the event where there is room for it; no other step changes what was sent or lost. */
  lemma LogStep(s: State, step: Step, id: SubId)
    requires Inv(s) && id in s.chans
    ensures var t := Apply(s, step);
            && id in t.chans
            && if step.Send? && OfferedAt(s, step, id, step.e) then
                 if Full(s, id)
                 then t.chans[id].sent == s.chans[id].sent && t.chans[id].lost == s.chans[id].lost + [step.e]
                 else t.chans[id].sent == s.chans[id].sent + [step.e] && t.chans[id].lost == s.chans[id].lost
               else t.chans[id].sent == s.chans[id].sent && t.chans[id].lost == s.chans[id].lost
  {
  }

  lemma NewLog(s: State, step: Step, id: SubId)
    requires Inv(s) && id !in s.chans && id in Apply(s, step).chans
    ensures Apply(s, step).chans[id].sent == [] && Apply(s, step).chans[id].lost == []
    ensures forall e: nat :: !OfferedAt(s, step, id, e)
  {
  }

  lemma ChansStay(s: State, step: Step, id: SubId)
    ensures id in s.chans ==> id in Apply(s, step).chans
  {
  }

  lemma {:induction false} NotYetMade(steps: seq<Step>, id: SubId, e: nat)
    requires id !in Run(steps).chans
    ensures forall k :: !LostAt(steps, k, id, e) && !SentAt(steps, k, id, e)
    decreases steps
  {
    if steps != [] {
      var init := steps[..|steps| - 1];
      RunKeepsInv(init);
      ChansStay(Run(init), steps[|init|], id);
      NotYetMade(init, id, e);
      forall k ensures !LostAt(steps, k, id, e) && !SentAt(steps, k, id, e) {
        EarlierOffer(steps, k, id, e);
      }
    }
  }

  lemma EarlierOffer(steps: seq<Step>, k: int, id: SubId, e: nat)
    requires steps != []
    ensures var init := steps[..|steps| - 1];
            && (k < |init| ==> (LostAt(steps, k, id, e) <==> LostAt(init, k, id, e)))
            && (k < |init| ==> (SentAt(steps, k, id, e) <==> SentAt(init, k, id, e)))
            && (k == |init| ==>
                  && (LostAt(steps, k, id, e) <==> OfferedAt(Run(init), steps[k], id, e) && Full(Run(init), id))
                  && (SentAt(steps, k, id, e) <==> OfferedAt(Run(init), steps[k], id, e) && !Full(Run(init), id)))
  {
    var init := steps[..|steps| - 1];
    if 0 <= k < |init| {
      assert init[..k] == steps[..k];
    }
  }

  /** An event is lost iff it was offered to the subscriber when its buffer was full. */
  lemma {:induction false} LostIffFull(steps: seq<Step>, id: SubId, e: nat)
    requires id in Run(steps).chans
    ensures e in Run(steps).chans[id].lost <==> exists k :: LostAt(steps, k, id, e)
    decreases steps
  {
    if steps != [] {
      var init, last := steps[..|steps| - 1], steps[|steps| - 1];
      var s := Run(init);
      RunKeepsInv(init);
      forall k ensures k < |init| ==> (LostAt(steps, k, id, e) <==> LostAt(init, k, id, e)) {
        EarlierOffer(steps, k, id, e);
      }
      EarlierOffer(steps, |init|, id, e);
      if id in s.chans {
        LostIffFull(init, id, e);
        LogStep(s, last, id);
      } else {
        NotYetMade(init, id, e);
        NewLog(s, last, id);
      }
    }
  }

  /** It is put in the buffer iff it was offered when there was room. */
  lemma {:induction false} SentIffRoom(steps: seq<Step>, id: SubId, e: nat)
    requires id in Run(steps).chans
    ensures e in Run(steps).chans[id].sent <==> exists k :: SentAt(steps, k, id, e)
    decreases steps
  {
    if steps != [] {
      var init, last := steps[..|steps| - 1], steps[|steps| - 1];
      var s := Run(init);
      RunKeepsInv(init);
      forall k ensures k < |init| ==> (SentAt(steps, k, id, e) <==> SentAt(init, k, id, e)) {
        EarlierOffer(steps, k, id, e);
      }
      EarlierOffer(steps, |init|, id, e);
      if id in s.chans {
        SentIffRoom(init, id, e);
        LogStep(s, last, id);
      } else {
        NotYetMade(init, id, e);
        NewLog(s, last, id);
      }
    }
  }

  /** A subscriber whose buffer is never full loses nothing. */
  lemma NothingLostWithRoom(steps: seq<Step>, id: SubId)
    requires id in Run(steps).chans && forall k :: 0 <= k < |steps| ==> !Full(Run(steps[..k]), id)
    ensures forall e :: e !in Run(steps).chans[id].lost
  {
    forall e ensures e !in Run(steps).chans[id].lost {
      LostIffFull(steps, id, e);
    }
  }

  // ----- Whole runs: one subscriber, events published one after another -----

  /** A subscriber joins, and n events are published, each read at once or none read. */
  function Rounds(id: SubId, buf: int, n: nat, prompt: bool): seq<Step> {
    if n == 0 then [MakeSub(id, buf), Insert(id), LoadBaseline(id)]
    else Rounds(id, buf, n - 1, prompt) + Round(id, n, prompt)
  }

  function Round(id: SubId, e: nat, prompt: bool): seq<Step> {
    [Number, LockRead(e), Send(e, id), UnlockRead(e), if prompt then Receive(id) else Idle]
  }

  function Joined(id: SubId, n: nat, c: Chan): State {
    State(n, {id}, false, map[id := c], map[id := Ready(1)], map[], false)
  }

  function UpTo(n: nat): (s: seq<nat>)
    ensures |s| == n && forall i :: 0 <= i < n ==> s[i] == i + 1
  {
    seq(n, i => i + 1)
  }

  lemma RunSnoc(steps: seq<Step>, x: Step)
    ensures Run(steps + [x]) == Apply(Run(steps), x)
  {
    assert (steps + [x])[..|steps|] == steps;
  }

  lemma RunJoins(id: SubId, buf: int)
    ensures Run(Rounds(id, buf, 0, true)) == Joined(id, 0, Chan(Capacity(buf), [], 0, [], true))
  {
    var a := [MakeSub(id, buf)];
    assert [] + a == a;
    RunSnoc([], MakeSub(id, buf));
    RunSnoc(a, Insert(id));
    RunSnoc(a + [Insert(id)], LoadBaseline(id));
    assert a + [Insert(id)] + [LoadBaseline(id)] == Rounds(id, buf, 0, true);
  }

  /** One event numbered, sent and done with. */
  lemma RunPublish(id: SubId, steps: seq<Step>, n: nat, c: Chan)
    requires Run(steps) == Joined(id, n, c) && c.open
    ensures Run(steps + [Number, LockRead(n + 1), Send(n + 1, id), UnlockRead(n + 1)])
            == Joined(id, n + 1, c.Offer(n + 1))
  {
    var e := n + 1;
    var s1, s2 := steps + [Number], steps + [Number] + [LockRead(e)];
    var s3 := s2 + [Send(e, id)];
    RunSnoc(steps, Number);
    RunSnoc(s1, LockRead(e));
    RunSnoc(s2, Send(e, id));
    RunSnoc(s3, UnlockRead(e));
    var fanned := Joined(id, e, c).(flights := map[e := Fanning({id})]);
    assert Apply(Apply(Joined(id, n, c), Number), LockRead(e)) == fanned;
    SendAlone(fanned, id, e, c);
    assert s3 + [UnlockRead(e)] == steps + [Number, LockRead(e), Send(e, id), UnlockRead(e)];
  }

  lemma SendAlone(s: State, id: SubId, e: nat, c: Chan)
    requires s == Joined(id, e, c).(flights := map[e := Fanning({id})]) && c.open
    ensures Apply(Apply(s, Send(e, id)), UnlockRead(e)) == Joined(id, e, c.Offer(e))
  {
    assert {id} - {id} == {};
    var t := Apply(s, Send(e, id));
    assert t.flights == map[e := Fanning({})] && t.chans == map[id := c.Offer(e)];
    assert t.flights - {e} == map[];
  }

  lemma RunRound(id: SubId, steps: seq<Step>, n: nat, c: Chan, prompt: bool)
    requires Run(steps) == Joined(id, n, c) && c.open
    ensures var d := c.Offer(n + 1);
            Run(steps + Round(id, n + 1, prompt))
            == Joined(id, n + 1, if prompt && d.Buffered() > 0 then d.(taken := d.taken + 1) else d)
  {
    var four := [Number, LockRead(n + 1), Send(n + 1, id), UnlockRead(n + 1)];
    var last := if prompt then Receive(id) else Idle;
    RunPublish(id, steps, n, c);
    RunSnoc(steps + four, last);
    assert steps + four + [last] == steps + Round(id, n + 1, prompt);
  }

  /** Reading each event before the next is published, a subscriber gets them all, in order. */
  lemma {:induction false} ReadInTime(id: SubId, buf: int, n: nat)
    ensures var s := Run(Rounds(id, buf, n, true));
            && id in s.chans && s.chans[id].sent == UpTo(n) && s.chans[id].taken == n && s.chans[id].lost == []
            && s == Joined(id, n, s.chans[id]) && s.chans[id].open
            && s.chans[id].cap == if buf <= 0 then 64 else buf
  {
    if n == 0 {
      RunJoins(id, buf);
    } else {
      ReadInTime(id, buf, n - 1);
      var s := Run(Rounds(id, buf, n - 1, true));
      RunRound(id, Rounds(id, buf, n - 1, true), n - 1, s.chans[id], true);
      assert UpTo(n) == UpTo(n - 1) + [n];
    }
  }

  /** Reading nothing, it keeps the first events, as many as its buffer holds (64 unless it asked for
      another number), and each later one is counted as dropped. */
  lemma {:induction false} OverflowDropsNewest(id: SubId, buf: int, n: nat)
    ensures var s := Run(Rounds(id, buf, n, false)); var cap := if buf <= 0 then 64 else buf;
            && id in s.chans && s.chans[id].cap == cap && s.chans[id].taken == 0
            && s.chans[id].sent == UpTo(if n < cap then n else cap)
            && s.chans[id].lost == UpTo(n)[if n < cap then n else cap..]
            && s == Joined(id, n, s.chans[id]) && s.chans[id].open
  {
    if n == 0 {
      RunJoins(id, buf);
    } else {
      OverflowDropsNewest(id, buf, n - 1);
      var s := Run(Rounds(id, buf, n - 1, false));
      RunRound(id, Rounds(id, buf, n - 1, false), n - 1, s.chans[id], false);
      assert UpTo(n) == UpTo(n - 1) + [n];
    }
  }

  /** Out of the bus: unsubscribed, closed with it, or never let in because it was closed. */
  ghost predicate Removed(s: State, id: SubId) {
    id in s.stages && id in s.chans && !s.stages[id].Made? && id !in s.subs
  }

  ghost predicate SameLogs(s: State, t: State, id: SubId) {
    && id in s.chans && id in t.chans
    && t.chans[id].sent == s.chans[id].sent && t.chans[id].lost == s.chans[id].lost
  }

  lemma RemovedStep(s: State, step: Step, id: SubId)
    requires Inv(s) && Removed(s, id)
    ensures Removed(Apply(s, step), id) && SameLogs(s, Apply(s, step), id)
  {
    match step
    case Send(e, k) => assert k == id ==> Apply(s, step) == s;
    case CloseBus =>
    case _ =>
  }

  lemma {:induction false} RemovedRun(s: State, after: seq<Step>, id: SubId)
    requires Inv(s) && Delivered(s) && Removed(s, id)
    ensures Removed(RunFrom(s, after), id) && SameLogs(s, RunFrom(s, after), id)
    decreases after
  {
    if after != [] {
      var init := after[..|after| - 1];
      RemovedRun(s, init, id);
      RunFromKeepsInv(s, init);
      RemovedStep(RunFrom(s, init), after[|after| - 1], id);
    }
  }

  /** After removal, by unsubscribing or by closing the bus, a subscriber's channel gets nothing more,
      whatever happens next. */
  lemma NothingAfterRemoval(before: seq<Step>, after: seq<Step>, id: SubId)
    requires Removed(Run(before), id)
    ensures SameLogs(Run(before), RunFrom(Run(before), after), id)
  {
    RunKeepsInv(before);
    RemovedRun(Run(before), after, id);
  }

  lemma RemovalKeepsLog(s: State, step: Step, id: SubId)
    requires Inv(s) && id in s.subs && id in s.stages && s.stages[id].Ready? && id !in Apply(s, step).subs
    ensures !ReadLocked(s.flights)
    ensures Removed(Apply(s, step), id) && SameLogs(s, Apply(s, step), id)
  {
    assert GoodStage(s, id);
    match step
    case Unsubscribe(_) =>
    case CloseBus =>
    case _ =>
  }

  /** What a removed subscriber got, for ever after: of the events from its baseline on, exactly those
      whose fan-out was over when it was removed, each enqueued or counted dropped once. */
  lemma ExactlyOnceUntilRemoval(before: seq<Step>, removal: Step, after: seq<Step>, id: SubId, e: nat)
    requires var s := Run(before);
             && id in s.subs && id in s.stages && s.stages[id].Ready? && s.stages[id].baseline <= e
             && id !in Apply(s, removal).subs
    ensures var s := Run(before); var u := RunFrom(Apply(s, removal), after);
            && id in u.chans
            && u.chans[id].Handled(e) == if e <= s.next && e !in s.flights then 1 else 0
  {
    var s := Run(before);
    RunKeepsInv(before);
    RemovalKeepsLog(s, removal, id);
    StepKeepsInv(s, removal);
    RemovedRun(Apply(s, removal), after, id);
    AtMostOnce(before, id, e);
    if e <= s.next {
      ExactlyOnce(before, id, e);
      assert e in s.flights ==> !s.flights[e].Fanning?;
    }
  }

  // ----- A slow subscriber affects nobody else -----

  /** Steps that may differ between two runs: how big subscriber `id`'s buffer is, and when it reads. */
  ghost predicate LocalTo(id: SubId, a: Step, b: Step) {
    || a == b
    || (a.MakeSub? && b.MakeSub? && a.id == b.id == id)
    || ((a == Receive(id) || a == Idle) && (b == Receive(id) || b == Idle))
  }

  /** The two states differ at most in what subscriber `id`'s channel holds. */
  ghost predicate SameButFor(id: SubId, s: State, t: State) {
    && s.next == t.next && s.subs == t.subs && s.closed == t.closed && s.stages == t.stages
    && s.flights == t.flights && s.panicked == t.panicked
    && (forall k :: k in s.chans <==> k in t.chans)
    && (forall k :: k in s.chans && k != id ==> s.chans[k] == t.chans[k])
    && (id in s.chans ==> s.chans[id].open == t.chans[id].open)
  }

  lemma IsolatedSend(id: SubId, s: State, t: State, e: nat, k: SubId)
    requires SameButFor(id, s, t)
    ensures SameButFor(id, Apply(s, Send(e, k)), Apply(t, Send(e, k)))
  {
  }

  lemma IsolatedClose(id: SubId, s: State, t: State)
    requires SameButFor(id, s, t)
    ensures SameButFor(id, Apply(s, CloseBus), Apply(t, CloseBus))
  {
    assert forall k :: k in s.chans ==> s.chans[k].open == t.chans[k].open;
  }

  lemma IsolatedLocal(id: SubId, s: State, t: State, a: Step, b: Step)
    requires SameButFor(id, s, t) && LocalTo(id, a, b) && a != b
    ensures SameButFor(id, Apply(s, a), Apply(t, b))
  {
  }

  lemma IsolatedCloseChan(id: SubId, s: State, t: State, k: SubId)
    requires SameButFor(id, s, t) && k in s.chans
    ensures SameButFor(id, CloseChan(s, k), CloseChan(t, k))
  {
  }

  lemma IsolatedInsert(id: SubId, s: State, t: State, k: SubId)
    requires SameButFor(id, s, t)
    ensures SameButFor(id, Apply(s, Insert(k)), Apply(t, Insert(k)))
  {
    if Apply(s, Insert(k)) != s && s.closed {
      IsolatedCloseChan(id, s.(stages := s.stages[k := Inserted]), t.(stages := s.stages[k := Inserted]), k);
    }
  }

  lemma IsolatedUnsubscribe(id: SubId, s: State, t: State, k: SubId)
    requires SameButFor(id, s, t)
    ensures SameButFor(id, Apply(s, Unsubscribe(k)), Apply(t, Unsubscribe(k)))
  {
    if k in s.stages && k in s.chans && s.stages[k].Ready? && !ReadLocked(s.flights) {
      var gone := s.stages[k := Gone(s.stages[k].baseline)];
      var s1 := s.(stages := gone, subs := s.subs - {k});
      var t1 := t.(stages := gone, subs := s.subs - {k});
      assert SameButFor(id, s1, t1);
      IsolatedCloseChan(id, s1, t1, k);
      if k in s.subs {
        assert Apply(s, Unsubscribe(k)) == CloseChan(s1, k) && Apply(t, Unsubscribe(k)) == CloseChan(t1, k);
      }
    }
  }

  lemma IsolatedPlain(id: SubId, s: State, t: State, a: Step)
    requires SameButFor(id, s, t)
    requires a.Number? || a.LockRead? || a.UnlockRead? || a.LoadBaseline? || a.Idle?
    ensures SameButFor(id, Apply(s, a), Apply(t, a))
  {
    assert Apply(s, a).chans == s.chans && Apply(t, a).chans == t.chans;
  }

  lemma IsolatedMake(id: SubId, s: State, t: State, k: SubId, buf: int)
    requires SameButFor(id, s, t)
    ensures SameButFor(id, Apply(s, MakeSub(k, buf)), Apply(t, MakeSub(k, buf)))
  {
  }

  lemma IsolatedReceive(id: SubId, s: State, t: State, k: SubId)
    requires SameButFor(id, s, t)
    ensures SameButFor(id, Apply(s, Receive(k)), Apply(t, Receive(k)))
  {
    if k in s.chans && k != id {
      assert s.chans[k] == t.chans[k];
      if s.chans[k].Buffered() > 0 {
        var c := s.chans[k].(taken := s.chans[k].taken + 1);
        assert Apply(s, Receive(k)) == s.(chans := s.chans[k := c]);
        assert Apply(t, Receive(k)) == t.(chans := t.chans[k := c]);
      }
    } else if k in s.chans {
      IsolatedOwnRead(id, s);
      IsolatedOwnRead(id, t);
    }
  }

  lemma IsolatedOwnRead(id: SubId, s: State)
    requires id in s.chans
    ensures SameButFor(id, s, Apply(s, Receive(id)))
  {
  }

  lemma IsolatedStep(id: SubId, s: State, t: State, a: Step, b: Step)
    requires SameButFor(id, s, t) && LocalTo(id, a, b)
    ensures SameButFor(id, Apply(s, a), Apply(t, b))
  {
    if a != b {
      IsolatedLocal(id, s, t, a, b);
    } else if a.Send? {
      IsolatedSend(id, s, t, a.e, a.id);
    } else if a.CloseBus? {
      IsolatedClose(id, s, t);
    } else if a.Insert? {
      IsolatedInsert(id, s, t, a.id);
    } else if a.Unsubscribe? {
      IsolatedUnsubscribe(id, s, t, a.id);
    } else if a.MakeSub? {
      IsolatedMake(id, s, t, a.id, a.buf);
    } else if a.Receive? {
      IsolatedReceive(id, s, t, a.id);
    } else {
      IsolatedPlain(id, s, t, a);
    }
  }

  /** Isolation: however small subscriber `id`'s buffer and however rarely it reads, every other
      subscriber's channel holds exactly the same events, and publishers proceed in the same way. */
  lemma {:induction false} Isolation(id: SubId, a: seq<Step>, b: seq<Step>)
    requires |a| == |b| && forall i :: 0 <= i < |a| ==> LocalTo(id, a[i], b[i])
    ensures SameButFor(id, Run(a), Run(b))
    decreases a
  {
    if a != [] {
      Isolation(id, a[..|a| - 1], b[..|b| - 1]);
      IsolatedStep(id, Run(a[..|a| - 1]), Run(b[..|b| - 1]), a[|a| - 1], b[|b| - 1]);
    }
  }

  // ----- The object, one call at a time -----

  class Subscriber {
    const cap: nat
    var sent: seq<nat>
    var taken: nat
    var lost: seq<nat>
    var open: bool

    constructor (cap: nat)
      ensures View() == Chan(cap, [], 0, [], true)
    {
      this.cap := cap;
      sent, taken, lost, open := [], 0, [], true;
    }

    function View(): Chan
      reads this
    {
      Chan(cap, sent, taken, lost, open)
    }

    /** Closing an open channel; closing it twice would panic. */
    method CloseOpen()
      requires open
      modifies this`open
      ensures View() == old(View()).(open := false)
    {
      open := false;
    }

    /** A send with a default branch: a full buffer drops the event and counts it. */
    method TrySend(e: nat)
      requires open
      modifies this`sent, this`lost
      ensures View() == old(View()).Offer(e)
      ensures taken == old(taken) && open
      ensures if |old(sent)| - taken < cap then sent == old(sent) + [e] && lost == old(lost)
              else sent == old(sent) && lost == old(lost) + [e]
    {
      if |sent| - taken < cap {
        sent := sent + [e];
      } else {
        lost := lost + [e];
      }
    }
  }

  class Bus {
    var next: nat
    var nextSubID: nat
    var subs: map<SubId, Subscriber>
    var closed: bool

    /** Registered channels are open and no two subscribers share one. */
    ghost predicate Valid()
      reads this, subs.Values
    {
      && (forall id :: id in subs ==> 1 <= id <= nextSubID && subs[id].open)
      && (forall i, j :: i in subs && j in subs && i != j ==> subs[i] != subs[j])
      && (closed ==> subs == map[])
    }

    constructor ()
      ensures Valid() && next == 0 && subs == map[] && !closed
    {
      next, nextSubID, subs, closed := 0, 0, map[], false;
    }

    /** A closed bus hands back a closed channel and registers nothing. */
    method Subscribe(buf: int) returns (sub: Subscriber, id: SubId, baseline: nat)
      requires Valid()
      modifies this
      ensures Valid() && fresh(sub) && next == old(next) && closed == old(closed)
      ensures id !in old(subs) && baseline == next + 1
      ensures sub.cap == if buf <= 0 then 64 else buf
      ensures sub.View() == Chan(sub.cap, [], 0, [], !closed)
      ensures subs == if closed then old(subs) else old(subs)[id := sub]
    {
      nextSubID := nextSubID + 1;
      id := nextSubID;
      sub := new Subscriber(Capacity(buf));
      if closed {
        sub.open := false;
      } else {
        subs := subs[id := sub];
      }
      baseline := next + 1;
    }

    /** Idempotent: only a registered channel is closed. */
    method Unsubscribe(id: SubId)
      requires Valid()
      modifies this`subs, subs.Values
      ensures Valid() && subs == old(subs) - {id}
      ensures id in old(subs) ==> old(subs)[id].View() == old(subs[id].View()).(open := false)
      ensures forall k :: k in subs ==> subs[k].View() == old(subs[k].View())
    {
      if id in subs {
        var s := subs[id];
        subs := subs - {id};
        s.CloseOpen();
      }
    }

    /** Every registered subscriber with room in its buffer gets the next number there, once, in whatever
        order the map is walked; the others lose it, and it is counted. */
    method Publish() returns (seqNo: nat)
      requires Valid()
      modifies this`next, subs.Values
      ensures Valid() && next == old(next) + 1 == seqNo
      ensures forall id :: id in subs ==> subs[id].View() == old(subs[id].View()).Offer(seqNo)
      ensures forall id :: id in subs ==> subs[id].taken == old(subs[id].taken)
      ensures forall id :: id in subs ==>
                if |old(subs[id].sent)| - subs[id].taken < subs[id].cap
                then subs[id].sent == old(subs[id].sent) + [seqNo] && subs[id].lost == old(subs[id].lost)
                else subs[id].sent == old(subs[id].sent) && subs[id].lost == old(subs[id].lost) + [seqNo]
    {
      next := next + 1;
      seqNo := next;
      OfferEach(seqNo, map id | id in subs :: subs[id].View());
    }

    method OfferEach(e: nat, ghost was: map<SubId, Chan>)
      requires was.Keys == subs.Keys && forall id :: id in subs ==> subs[id].View() == was[id] && was[id].open
      requires forall i, j :: i in subs && j in subs && i != j ==> subs[i] != subs[j]
      modifies subs.Values
      ensures forall id :: id in subs ==> subs[id].View() == was[id].Offer(e)
    {
      var remaining := subs.Keys;
      while remaining != {}
        invariant remaining <= subs.Keys && Offering(was, remaining, e)
        decreases remaining
      {
        var id :| id in remaining;
        OfferOne(id, e, was, remaining);
        remaining := remaining - {id};
      }
    }

    /** Those still to be offered the event are as they were, and the others have been offered it. */
    ghost predicate Offering(was: map<SubId, Chan>, remaining: set<SubId>, e: nat)
      requires was.Keys == subs.Keys
      reads this, subs.Values
    {
      forall id :: id in subs ==> subs[id].View() == if id in remaining then was[id] else was[id].Offer(e)
    }

    /** One iteration of Publish. */
    method OfferOne(id: SubId, e: nat, ghost was: map<SubId, Chan>, ghost remaining: set<SubId>)
      requires was.Keys == subs.Keys && Offering(was, remaining, e) && id in remaining && id in subs && was[id].open
      requires forall i, j :: i in subs && j in subs && i != j ==> subs[i] != subs[j]
      modifies subs[id]
      ensures Offering(was, remaining - {id}, e)
    {
      subs[id].TrySend(e);
    }

    method Close()
      requires Valid()
      modifies this`subs, this`closed, subs.Values
      ensures Valid() && closed && subs == map[]
      ensures forall id :: id in old(subs) ==> old(subs)[id].View() == old(subs[id].View()).(open := false)
    {
      if closed {
        return;
      }
      closed := true;
      CloseEach(subs, map id | id in subs :: subs[id].View());
    }

    /** The loop of Close. */
    method CloseEach(ghost all: map<SubId, Subscriber>, ghost was: map<SubId, Chan>)
      requires subs == all && was.Keys == all.Keys
      requires forall i, j :: i in all && j in all && i != j ==> all[i] != all[j]
      requires forall id :: id in all ==> all[id].View() == was[id] && was[id].open
      modifies this`subs, all.Values
      ensures subs == map[]
      ensures forall id :: id in all ==> all[id].View() == was[id].(open := false)
    {
      while subs != map[]
        invariant Closing(all, was)
        decreases subs.Keys
      {
        var id :| id in subs;
        CloseOne(id, all, was);
      }
    }

    /** Those still registered are as they were, and the others are closed. */
    ghost predicate Closing(all: map<SubId, Subscriber>, was: map<SubId, Chan>)
      requires was.Keys == all.Keys
      reads this, all.Values
    {
      && (forall id :: id in subs ==> id in all && subs[id] == all[id])
      && (forall id :: id in all ==> all[id].View() == if id in subs then was[id] else was[id].(open := false))
    }

    /** One iteration of Close. */
    method CloseOne(id: SubId, ghost all: map<SubId, Subscriber>, ghost was: map<SubId, Chan>)
      requires was.Keys == all.Keys && Closing(all, was)
      requires id in subs && was[id].open
      requires forall i, j :: i in all && j in all && i != j ==> all[i] != all[j]
      modifies this`subs, subs[id]
      ensures subs == old(subs) - {id} && Closing(all, was)
    {
      var sub := subs[id];
      subs := subs - {id};
      sub.CloseOpen();
    }
  }
}
