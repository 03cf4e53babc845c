/** The Firehose emitter as a step system: emitters on request goroutines, the batching
    worker, the clock, `Close`, and a delivery service that answers as it likes. Each
    channel operation, counter update and service call is a step of its own. */
module EmitterProtocol {
  import opened Common
  import opened Batching

  /** Where the worker goes once the flush it is in has finished. */
  datatype Then = Reselect | Append(record: Record, draining: bool) | Exit

  /** The worker's program counter. `Select(false)` is the outer select and `Select(true)`
      the drain loop; `Counting` lies between the two counter updates of a delivery. */
  datatype Pc =
    | Select(draining: bool)
    | Hand(event: Event, draining: bool)
    | Sending(next: Then)
    | Counting(uncounted: nat, next: Then)
    | Exited

  datatype State = State(
    capacity: nat,
    emits: nat,                  // Emit calls whose channel send has been decided
    rejecting: nat,              // emitters that found the buffer full, not yet counted
    accepted: seq<Event>,        // every event the channel ever took, in order
    taken: seq<Event>,           // the part of it the worker has encoded or refused
    queue: seq<Event>,
    pc: Pc,
    pending: seq<Record>,
    sent: seq<seq<Record>>,      // batches whose delivery is over
    refused: seq<Event>,         // events dropped because they do not encode
    dropped: nat,
    delivered: nat,
    failed: nat,
    closed: bool,
    drainedAt: nat               // |accepted| when the drain found the queue empty
  )

  function Start(capacity: nat): State {
    State(capacity, 0, 0, [], [], [], Select(false), [], [], [], 0, 0, 0, false, 0)
  }

  /** The steps. `PutReturned` carries the FailedPutCount the service reports. */
  datatype Step =
    | EmitAccept(e: Event) | EmitReject(e: Event) | CountReject | CloseDone
    | Receive | Tick | SeeDone | Process | PutErrored | PutReturned(failedPut: nat) | CountDelivered
    | DrainEmpty

  predicate Enabled(s: State, step: Step) {
    match step
    case EmitAccept(_) => |s.queue| < s.capacity
    case EmitReject(_) => |s.queue| >= s.capacity
    case CountReject => s.rejecting > 0
    case CloseDone => !s.closed
    case Receive => s.pc.Select? && s.queue != []
    case Tick => s.pc == Select(false)
    case SeeDone => s.pc == Select(false) && s.closed
    case Process => s.pc.Hand?
    case PutErrored => s.pc.Sending?
    case PutReturned(f) => s.pc.Sending? && f <= |s.pending|
    case CountDelivered => s.pc.Counting?
    case DrainEmpty => s.pc == Select(true) && s.queue == []
  }

  /** The end of a flush: the batch is over and the worker resumes where it was. */
  function AfterFlush(s: State, next: Then): State {
    var t := s.(sent := s.sent + [s.pending]);
    match next
    case Reselect => t.(pending := [], pc := Select(false))
    case Append(r, d) => t.(pending := [r], pc := Select(d))
    case Exit => t.(pending := [], pc := Exited)
  }

  /** Encoding what was received, then flushing first or appending at once. */
  function Processed(s: State): State
    requires s.pc.Hand?
  {
    var d := s.pc.draining;
    var t := s.(taken := s.taken + [s.pc.event]);
    match Encode(s.pc.event)
    case None => t.(pc := Select(d), refused := s.refused + [s.pc.event], dropped := s.dropped + 1)
    case Some(r) =>
      if Breaches(s.pending, r) && s.pending != [] then t.(pc := Sending(Append(r, d)))
      else t.(pc := Select(d), pending := s.pending + [r])
  }

  function Do(s: State, step: Step): State
    requires Enabled(s, step)
  {
    match step
    case EmitAccept(e) => s.(emits := s.emits + 1, accepted := s.accepted + [e], queue := s.queue + [e])
    case EmitReject(_) => s.(emits := s.emits + 1, rejecting := s.rejecting + 1)
    case CountReject => s.(rejecting := s.rejecting - 1, dropped := s.dropped + 1)
    case CloseDone => s.(closed := true)
    case Receive => s.(queue := s.queue[1..], pc := Hand(s.queue[0], s.pc.draining))
    case Tick => if s.pending == [] then s else s.(pc := Sending(Reselect))
    case SeeDone => s.(pc := Select(true))
    case Process => Processed(s)
    case PutErrored => AfterFlush(s.(failed := s.failed + |s.pending|), s.pc.next)
    case PutReturned(f) => s.(failed := s.failed + f, pc := Counting(|s.pending| - f, s.pc.next))
    case CountDelivered => AfterFlush(s.(delivered := s.delivered + s.pc.uncounted), s.pc.next)
    case DrainEmpty =>
      var t := s.(drainedAt := |s.accepted|);
      if s.pending == [] then t.(pc := Exited) else t.(pc := Sending(Exit))
  }

  ghost predicate CanRun(s: State, steps: seq<Step>)
    decreases |steps|
  {
    steps == [] || (Enabled(s, steps[0]) && CanRun(Do(s, steps[0]), steps[1..]))
  }

  function Run(s: State, steps: seq<Step>): State
    requires CanRun(s, steps)
    decreases |steps|
  {
    if steps == [] then s else Run(Do(s, steps[0]), steps[1..])
  }

  ghost predicate Reachable(s: State) {
    exists capacity: nat, steps: seq<Step> ::
      CanRun(Start(capacity), steps) && Run(Start(capacity), steps) == s
  }

  // ----- What every state keeps -----

  /** The event or record the worker holds outside `pending`, as a sequence of at most one. */
  function InHand(s: State): seq<Event> {
    if s.pc.Hand? then [s.pc.event] else []
  }

  function Carried(s: State): seq<Record> {
    if s.pc.Sending? && s.pc.next.Append? then [s.pc.next.record]
    else if s.pc.Counting? && s.pc.next.Append? then [s.pc.next.record]
    else []
  }

  function Leaving(s: State): bool {
    s.pc.Exited? || (s.pc.Sending? && s.pc.next.Exit?) || (s.pc.Counting? && s.pc.next.Exit?)
  }

  function Draining(s: State): bool {
    match s.pc
    case Select(d) => d
    case Hand(_, d) => d
    case Sending(n) => n.Exit? || (n.Append? && n.draining)
    case Counting(_, n) => n.Exit? || (n.Append? && n.draining)
    case Exited => true
  }

  /** Events of the batch in hand that no counter covers yet. */
  function Uncounted(s: State): nat {
    if s.pc.Counting? then s.pc.uncounted else |s.pending|
  }

  /** Every Emit call is counted in exactly one place. */
  predicate Conserved(s: State) {
    s.emits == s.dropped + s.rejecting + |s.queue| + |InHand(s)| + |Carried(s)| + Uncounted(s)
               + s.delivered + s.failed
  }

  /** What the three counters have counted. */
  predicate Counted(s: State) {
    && s.emits + |s.refused| == |s.accepted| + s.rejecting + s.dropped
    && s.delivered + s.failed + Uncounted(s) == |Flatten(s.sent)| + |s.pending|
  }

  /** The channel hands its events over in the order it took them. */
  predicate Fifo(s: State) {
    s.accepted == s.taken + InHand(s) + s.queue
  }

  /** The send order is the channel order, and only what fails to encode is missing. */
  predicate Ordered(s: State) {
    InOrder(s.sent, s.pending, Carried(s), s.taken) && s.refused == Unencodable(s.taken)
  }

  predicate InOrder(sent: seq<seq<Record>>, pending: seq<Record>, carried: seq<Record>, taken: seq<Event>) {
    Flatten(sent) + pending + carried == Encodable(taken)
  }

  predicate AllFit(batches: seq<seq<Record>>) {
    forall i :: 0 <= i < |batches| ==> Fits(batches[i]) && batches[i] != []
  }

  predicate Bounded(s: State) {
    && |s.queue| <= s.capacity
    && Fits(s.pending) && Sized(s.pending) && Sized(Carried(s))
    && AllFit(s.sent)
    && (s.pc.Sending? || s.pc.Counting? ==> s.pending != [])
    && (s.pc.Counting? ==> s.pc.uncounted <= |s.pending|)
  }

  predicate ClosedDown(s: State) {
    && (Draining(s) ==> s.closed)
    && (s.pc.Exited? ==> s.pending == [])
    && (Leaving(s) ==> s.drainedAt <= |s.accepted| && s.queue == s.accepted[s.drainedAt..])
  }

  predicate Inv(s: State) {
    Counted(s) && Fifo(s) && Ordered(s) && Bounded(s) && ClosedDown(s)
  }

  lemma StartInv(capacity: nat)
    ensures Inv(Start(capacity))
  {
  }

  lemma AfterFlushKeepsCounted(s: State, next: Then)
    requires s.emits + |s.refused| == |s.accepted| + s.rejecting + s.dropped
    requires s.delivered + s.failed == |Flatten(s.sent)| + |s.pending|
    ensures Counted(AfterFlush(s, next))
  {
    FlattenSnoc(s.sent, s.pending);
  }

  lemma ProcessKeepsCounted(s: State)
    requires Counted(s) && s.pc.Hand?
    ensures Counted(Processed(s))
  {
  }

  predicate Ends(step: Step) { step.Process? || step.PutErrored? || step.CountDelivered? }

  lemma QuietKeepsCounted(s: State, step: Step)
    requires Counted(s) && Bounded(s) && Enabled(s, step) && !Ends(step)
    ensures Counted(Do(s, step))
  {
    assert Do(s, step).sent == s.sent && Do(s, step).pending == s.pending;
  }

  lemma ErroredKeepsCounted(s: State)
    requires Counted(s) && s.pc.Sending?
    ensures Counted(Do(s, PutErrored))
  {
    AfterFlushKeepsCounted(s.(failed := s.failed + |s.pending|), s.pc.next);
  }

  lemma DeliveredKeepsCounted(s: State)
    requires Counted(s) && s.pc.Counting?
    ensures Counted(Do(s, CountDelivered))
  {
    AfterFlushKeepsCounted(s.(delivered := s.delivered + s.pc.uncounted), s.pc.next);
  }

  lemma StepKeepsCounted(s: State, step: Step)
    requires Counted(s) && Bounded(s) && Enabled(s, step)
    ensures Counted(Do(s, step))
  {
    if step.Process? {
      ProcessKeepsCounted(s);
    } else if step.PutErrored? {
      ErroredKeepsCounted(s);
    } else if step.CountDelivered? {
      DeliveredKeepsCounted(s);
    } else {
      QuietKeepsCounted(s, step);
    }
  }

  lemma AppendKeepsFits(open: seq<Record>, r: Record)
    requires Fits(open) && Sized(open) && Sized([r]) && (!Breaches(open, r) || open == [])
    ensures Fits(open + [r]) && Sized(open + [r])
  {
    assert [r][0] == r;
    BytesAppend(open, [r]);
    BytesAppend([], [r]);
    assert [] + [r] == [r];
  }

  lemma ProcessKeepsBounded(s: State)
    requires Bounded(s) && s.pc.Hand?
    ensures Bounded(Processed(s))
  {
    var e := Encode(s.pc.event);
    if e.Some? {
      assert Sized([e.value]);
      if !Breaches(s.pending, e.value) || s.pending == [] {
        AppendKeepsFits(s.pending, e.value);
      }
    }
  }

  lemma AfterFlushKeepsBounded(s: State, next: Then)
    requires Fits(s.pending) && s.pending != [] && |s.queue| <= s.capacity && AllFit(s.sent)
    requires next.Append? ==> Sized([next.record])
    ensures Bounded(AfterFlush(s, next))
  {
    if next.Append? {
      BytesAppend([], [next.record]);
      assert [] + [next.record] == [next.record] && [next.record][0] == next.record;
    }
  }

  lemma FlushKeepsBounded(s: State, step: Step)
    requires Bounded(s) && Enabled(s, step) && Ends(step) && !step.Process?
    ensures Bounded(Do(s, step))
  {
    if step.PutErrored? {
      AfterFlushKeepsBounded(s.(failed := s.failed + |s.pending|), s.pc.next);
    } else {
      AfterFlushKeepsBounded(s.(delivered := s.delivered + s.pc.uncounted), s.pc.next);
    }
  }

  lemma QuietKeepsBounded(s: State, step: Step)
    requires Bounded(s) && Enabled(s, step) && !Ends(step)
    ensures Bounded(Do(s, step))
  {
    assert Do(s, step).sent == s.sent && Do(s, step).pending == s.pending && Carried(Do(s, step)) == Carried(s);
  }

  lemma StepKeepsBounded(s: State, step: Step)
    requires Bounded(s) && Enabled(s, step)
    ensures Bounded(Do(s, step))
  {
    if step.Process? {
      ProcessKeepsBounded(s);
    } else if Ends(step) {
      FlushKeepsBounded(s, step);
    } else {
      QuietKeepsBounded(s, step);
    }
  }

  lemma StepKeepsClosedDown(s: State, step: Step)
    requires ClosedDown(s) && Enabled(s, step)
    ensures ClosedDown(Do(s, step))
  {
  }

  lemma MovingKeepsFifo(s: State, step: Step)
    requires Fifo(s) && Enabled(s, step) && (step.EmitAccept? || step.Receive? || step.Process?)
    ensures Fifo(Do(s, step))
  {
    if step.EmitAccept? {
      Associative(s.taken + InHand(s), s.queue, [step.e]);
    } else if step.Receive? {
      assert s.queue == [s.queue[0]] + s.queue[1..];
    }
  }

  lemma StepKeepsFifo(s: State, step: Step)
    requires Fifo(s) && Enabled(s, step)
    ensures Fifo(Do(s, step))
  {
    if step.EmitAccept? || step.Receive? || step.Process? {
      MovingKeepsFifo(s, step);
    } else {
      var t := Do(s, step);
      assert t.accepted == s.accepted && t.taken == s.taken && InHand(t) == InHand(s) && t.queue == s.queue;
    }
  }

  lemma FlushKeepsOrder(sent: seq<seq<Record>>, pending: seq<Record>, carried: seq<Record>, taken: seq<Event>)
    requires InOrder(sent, pending, carried, taken)
    ensures InOrder(sent + [pending], carried, [], taken)
  {
    FlattenSnoc(sent, pending);
    EmptyTail(Flatten(sent) + pending + carried);
  }

  lemma EmptyTail<T>(a: seq<T>)
    ensures a + [] == a
  {
  }

  lemma TakingKeepsOrder(sent: seq<seq<Record>>, pending: seq<Record>, taken: seq<Event>, e: Event)
    requires InOrder(sent, pending, [], taken)
    ensures match Encode(e)
            case None => InOrder(sent, pending, [], taken + [e])
            case Some(r) => InOrder(sent, pending, [r], taken + [e]) && InOrder(sent, pending + [r], [], taken + [e])
  {
    EncodableSnoc(taken, e);
    EmptyTail(Flatten(sent) + pending);
    if Encode(e).Some? {
      Associative(Flatten(sent), pending, [Encode(e).value]);
      EmptyTail(Flatten(sent) + (pending + [Encode(e).value]));
    }
  }

  lemma ProcessKeepsOrdered(s: State)
    requires Ordered(s) && s.pc.Hand?
    ensures Ordered(Processed(s))
  {
    EncodableSnoc(s.taken, s.pc.event);
    TakingKeepsOrder(s.sent, s.pending, s.taken, s.pc.event);
  }

  lemma AfterFlushKeepsOrdered(s: State, next: Then)
    requires Ordered(s) && (s.pc.Sending? || s.pc.Counting?) && s.pc.next == next
    ensures Ordered(AfterFlush(s, next))
  {
    FlushKeepsOrder(s.sent, s.pending, Carried(s), s.taken);
  }

  lemma QuietStep(s: State, step: Step)
    requires Enabled(s, step) && !Ends(step)
    ensures SameOrder(s, Do(s, step))
  {
  }

  predicate SameOrder(s: State, t: State) {
    && t.sent == s.sent && t.pending == s.pending && t.taken == s.taken && t.refused == s.refused
    && Carried(t) == Carried(s)
  }

  lemma SameOrderKeepsOrdered(s: State, t: State)
    requires Ordered(s) && SameOrder(s, t)
    ensures Ordered(t)
  {
  }

  lemma ErroredKeepsOrdered(s: State)
    requires Ordered(s) && s.pc.Sending?
    ensures Ordered(Do(s, PutErrored))
  {
    AfterFlushKeepsOrdered(s.(failed := s.failed + |s.pending|), s.pc.next);
  }

  lemma DeliveredKeepsOrdered(s: State)
    requires Ordered(s) && s.pc.Counting?
    ensures Ordered(Do(s, CountDelivered))
  {
    AfterFlushKeepsOrdered(s.(delivered := s.delivered + s.pc.uncounted), s.pc.next);
  }

  lemma StepKeepsOrdered(s: State, step: Step)
    requires Ordered(s) && Enabled(s, step)
    ensures Ordered(Do(s, step))
  {
    if step.Process? {
      ProcessKeepsOrdered(s);
    } else if step.PutErrored? {
      ErroredKeepsOrdered(s);
    } else if step.CountDelivered? {
      DeliveredKeepsOrdered(s);
    } else {
      QuietStep(s, step);
      SameOrderKeepsOrdered(s, Do(s, step));
    }
  }

  lemma StepKeepsInv(s: State, step: Step)
    requires Inv(s) && Enabled(s, step)
    ensures Inv(Do(s, step))
  {
    StepKeepsCounted(s, step);
    StepKeepsBounded(s, step);
    StepKeepsClosedDown(s, step);
    StepKeepsFifo(s, step);
    StepKeepsOrdered(s, step);
  }

  lemma {:induction false} RunKeepsInv(s: State, steps: seq<Step>)
    requires Inv(s) && CanRun(s, steps)
    ensures Inv(Run(s, steps))
    decreases |steps|
  {
    if steps != [] {
      StepKeepsInv(s, steps[0]);
      RunKeepsInv(Do(s, steps[0]), steps[1..]);
    }
  }

  lemma {:induction false} RunAppend(s: State, a: seq<Step>, b: seq<Step>)
    requires CanRun(s, a) && CanRun(Run(s, a), b)
    ensures CanRun(s, a + b) && Run(s, a + b) == Run(Run(s, a), b)
    decreases |a|
  {
    if a == [] {
      assert a + b == b;
    } else {
      assert (a + b)[0] == a[0] && (a + b)[1..] == a[1..] + b;
      RunAppend(Do(s, a[0]), a[1..], b);
    }
  }

  lemma ReachableInv(s: State)
    requires Reachable(s)
    ensures Inv(s)
  {
    var capacity: nat, steps :| CanRun(Start(capacity), steps) && Run(Start(capacity), steps) == s;
    StartInv(capacity);
    RunKeepsInv(Start(capacity), steps);
  }

  // ----- Conservation and order -----

  lemma InvConserves(s: State)
    requires Inv(s)
    ensures Conserved(s)
  {
    EncodableSizes(s.taken);
  }

  /** In every interleaving, each Emit call is dropped, on its way, delivered or failed. */
  lemma EmitsAreConserved(s: State)
    requires Reachable(s)
    ensures Conserved(s)
  {
    ReachableInv(s);
    InvConserves(s);
  }

  /** All records the worker ever made are those of events it took. */
  lemma RecordsAreFaithful(s: State)
    requires Inv(s)
    ensures Faithful(Flatten(s.sent)) && Faithful(s.pending) && Faithful(Carried(s))
    ensures forall i :: 0 <= i < |s.sent| ==> Faithful(s.sent[i])
  {
    EncodableIsFaithful(s.taken);
    FaithfulParts(Flatten(s.sent) + s.pending, Carried(s));
    FaithfulParts(Flatten(s.sent), s.pending);
    FaithfulBatches(s.sent);
  }

  lemma FaithfulParts(a: seq<Record>, b: seq<Record>)
    requires Faithful(a + b)
    ensures Faithful(a) && Faithful(b)
  {
    assert forall i :: 0 <= i < |a| ==> (a + b)[i] == a[i];
    assert forall i :: 0 <= i < |b| ==> (a + b)[|a| + i] == b[i];
  }

  lemma {:induction false} FaithfulBatches(batches: seq<seq<Record>>)
    requires Faithful(Flatten(batches))
    ensures forall i :: 0 <= i < |batches| ==> Faithful(batches[i])
  {
    if batches != [] {
      FaithfulParts(batches[0], Flatten(batches[1..]));
      FaithfulBatches(batches[1..]);
      assert forall i :: 1 <= i < |batches| ==> batches[i] == batches[1..][i - 1];
    }
  }

  /** The buffer never exceeds its bound, and every batch handed to the service is one it
      accepts, by the JSON of its events, and is not empty. */
  lemma LimitsAlwaysHold(s: State)
    requires Reachable(s)
    ensures |s.queue| <= s.capacity
    ensures forall i :: 0 <= i < |s.sent| ==> Acceptable(Events(s.sent[i])) && s.sent[i] != []
    ensures Acceptable(Events(s.pending)) && (s.pc.Sending? ==> s.pending != [])
    ensures AllFit(s.sent) && Fits(s.pending)
  {
    ReachableInv(s);
    RecordsAreFaithful(s);
    forall i | 0 <= i < |s.sent| ensures Acceptable(Events(s.sent[i])) {
      AcceptableIffFits(s.sent[i]);
    }
    AcceptableIffFits(s.pending);
  }

  /** The worker refuses exactly the events it took that cannot be sent, and makes records of
      exactly the others, each as often as it took them. */
  lemma RefusedIffUnsendable(s: State, e: Event)
    requires Reachable(s)
    ensures multiset(s.refused)[e] == if Sendable(e) then 0 else multiset(s.taken)[e]
    ensures multiset(Events(Flatten(s.sent) + s.pending + Carried(s)))[e]
         == if Sendable(e) then multiset(s.taken)[e] else 0
  {
    ReachableInv(s);
    EncodableKeeps(s.taken, e);
  }

  lemma {:induction false} EncodingSplits(es: seq<Event>)
    ensures multiset(es) == multiset(Events(Encodable(es))) + multiset(Unencodable(es))
  {
    forall e ensures multiset(es)[e] == (multiset(Events(Encodable(es))) + multiset(Unencodable(es)))[e] {
      EncodableKeeps(es, e);
    }
  }

  /** The batches sent, the batch in hand, then the rest of the channel read as the accepted
      events in order: only refused events are missing and nothing is repeated. */
  lemma NothingReorderedOrLost(s: State)
    requires Reachable(s)
    ensures Flatten(s.sent) + s.pending + Carried(s) + Encodable(InHand(s) + s.queue) == Encodable(s.accepted)
    ensures multiset(s.accepted) == multiset(Events(Flatten(s.sent) + s.pending + Carried(s)))
                                    + multiset(s.refused) + multiset(InHand(s)) + multiset(s.queue)
  {
    ReachableInv(s);
    Associative(s.taken, InHand(s), s.queue);
    EncodableAppend(s.taken, InHand(s) + s.queue);
    EncodingSplits(s.taken);
  }

  // ----- Shutdown -----

  predicate Sends(step: Step) { step.EmitAccept? }

  predicate NoSends(steps: seq<Step>) {
    forall i :: 0 <= i < |steps| ==> !Sends(steps[i])
  }

  /** The events the channel takes in the course of `steps`. */
  function Accepts(steps: seq<Step>): seq<Event> {
    if steps == [] then []
    else (if Sends(steps[0]) then [steps[0].e] else []) + Accepts(steps[1..])
  }

  lemma {:induction false} AcceptsNothing(steps: seq<Step>)
    ensures Accepts(steps) == [] <==> NoSends(steps)
  {
    if steps != [] {
      AcceptsNothing(steps[1..]);
      assert NoSends(steps) <==> !Sends(steps[0]) && NoSends(steps[1..]) by {
        assert forall i :: 1 <= i < |steps| ==> steps[i] == steps[1..][i - 1];
      }
    }
  }

  lemma LeavingStep(s: State, step: Step)
    requires Leaving(s) && Enabled(s, step)
    ensures Leaving(Do(s, step)) && Do(s, step).queue == s.queue + (if Sends(step) then [step.e] else [])
  {
  }

  /** Once the drain has found the channel empty, whatever it takes stays in it. */
  lemma {:induction false} LeavingQueueGrows(s: State, steps: seq<Step>)
    requires Leaving(s) && CanRun(s, steps)
    ensures Leaving(Run(s, steps)) && Run(s, steps).queue == s.queue + Accepts(steps)
    decreases |steps|
  {
    if steps != [] {
      LeavingStep(s, steps[0]);
      LeavingQueueGrows(Do(s, steps[0]), steps[1..]);
    }
  }

  lemma {:induction false} QueueAfterDrain(s: State, steps: seq<Step>, i: nat)
    requires CanRun(s, steps) && i < |steps| && steps[i].DrainEmpty?
    ensures Run(s, steps).queue == Accepts(steps[i + 1..])
    decreases |steps|
  {
    if i == 0 {
      LeavingQueueGrows(Do(s, steps[0]), steps[1..]);
    } else {
      QueueAfterDrain(Do(s, steps[0]), steps[1..], i - 1);
    }
  }

  predicate DrainsAt(steps: seq<Step>, i: int) { 0 <= i < |steps| && steps[i].DrainEmpty? }

  lemma OnlyDrainLeaves(s: State, step: Step)
    requires !Leaving(s) && Enabled(s, step) && !step.DrainEmpty?
    ensures !Leaving(Do(s, step))
  {
  }

  lemma {:induction false} LeavingDrained(s: State, steps: seq<Step>) returns (i: nat)
    requires CanRun(s, steps) && !Leaving(s) && Leaving(Run(s, steps))
    ensures DrainsAt(steps, i)
    decreases |steps|
  {
    if steps[0].DrainEmpty? {
      i := 0;
    } else {
      OnlyDrainLeaves(s, steps[0]);
      var j := LeavingDrained(Do(s, steps[0]), steps[1..]);
      i := j + 1;
    }
  }

  /** What remains stranded in the channel when the worker has gone is exactly what was
      accepted after the drain found it empty; everything earlier was sent or refused. */
  lemma ExitStrandsLateEmits(s: State)
    requires Reachable(s) && s.pc.Exited?
    ensures s.pending == [] && s.drainedAt <= |s.accepted|
    ensures s.queue == s.accepted[s.drainedAt..]
    ensures Flatten(s.sent) == Encodable(s.accepted[..s.drainedAt])
    ensures s.emits == s.delivered + s.failed + s.dropped + s.rejecting + |s.queue|
  {
    ReachableInv(s);
    InvConserves(s);
    assert s.taken + InHand(s) == s.taken;
    assert s.accepted[..s.drainedAt] == s.taken;
  }

  /** In every run that ends with the worker gone, the drain found the channel empty at some
      step, and events are stranded exactly when an emit was accepted after that step. */
  lemma StrandedIffEmittedLate(capacity: nat, steps: seq<Step>)
    requires CanRun(Start(capacity), steps) && Run(Start(capacity), steps).pc.Exited?
    ensures exists i :: DrainsAt(steps, i)
    ensures forall i :: DrainsAt(steps, i) ==>
              && Run(Start(capacity), steps).queue == Accepts(steps[i + 1..])
              && (Run(Start(capacity), steps).queue == [] <==> NoSends(steps[i + 1..]))
  {
    var drained := LeavingDrained(Start(capacity), steps);
    forall i | DrainsAt(steps, i)
      ensures Run(Start(capacity), steps).queue == Accepts(steps[i + 1..])
      ensures Accepts(steps[i + 1..]) == [] <==> NoSends(steps[i + 1..])
    {
      QueueAfterDrain(Start(capacity), steps, i);
      AcceptsNothing(steps[i + 1..]);
    }
  }

  lemma RunOne(s: State, step: Step, rest: seq<Step>)
    requires Enabled(s, step) && CanRun(Do(s, step), rest)
    ensures CanRun(s, [step] + rest) && Run(s, [step] + rest) == Run(Do(s, step), rest)
  {
    assert ([step] + rest)[0] == step && ([step] + rest)[1..] == rest;
  }

  /** It does happen: this run accepts an event after `Close`, and leaves it in the channel
      of a worker that has gone, in none of the three counters. */
  lemma EmitAfterDrainIsStranded(e: Event)
    ensures var steps := [CloseDone] + ([SeeDone] + ([DrainEmpty] + ([EmitAccept(e)] + [])));
            && CanRun(Start(1), steps)
            && var t := Run(Start(1), steps);
               t.pc.Exited? && t.queue == [e] && t.emits == 1 && t.delivered + t.failed + t.dropped == 0
  {
    var a := Do(Start(1), CloseDone);
    var b := Do(a, SeeDone);
    var c := Do(b, DrainEmpty);
    RunOne(c, EmitAccept(e), []);
    RunOne(b, DrainEmpty, [EmitAccept(e)] + []);
    RunOne(a, SeeDone, [DrainEmpty] + ([EmitAccept(e)] + []));
    RunOne(Start(1), CloseDone, [SeeDone] + ([DrainEmpty] + ([EmitAccept(e)] + [])));
  }

  /** When nothing is emitted after `Close` and it returns nil, the channel and the batch are
      empty, and once every Emit call has returned each was delivered, failed or dropped. */
  lemma CleanShutdown(s: State, steps: seq<Step>)
    requires Reachable(s) && !s.closed
    requires CanRun(Do(s, CloseDone), steps) && NoSends(steps)
    requires Run(Do(s, CloseDone), steps).pc.Exited?
    ensures var t := Run(Do(s, CloseDone), steps);
            && t.queue == [] && t.pending == []
            && t.emits == t.delivered + t.failed + t.dropped + t.rejecting
            && (t.rejecting == 0 ==> t.emits == t.delivered + t.failed + t.dropped)
            && Flatten(t.sent) == Encodable(t.accepted)
  {
    var closed := Do(s, CloseDone);
    ReachableInv(s);
    StepKeepsInv(s, CloseDone);
    RunKeepsInv(closed, steps);
    var i := LeavingDrained(closed, steps);
    QueueAfterDrain(closed, steps, i);
    AcceptsNothing(steps[i + 1..]);
    EmptiedIsDone(Run(closed, steps));
  }

  lemma EmptiedIsDone(s: State)
    requires Inv(s) && s.pc.Exited? && s.queue == []
    ensures s.pending == [] && s.emits == s.delivered + s.failed + s.dropped + s.rejecting
    ensures Flatten(s.sent) == Encodable(s.accepted)
  {
    InvConserves(s);
    assert s.taken + InHand(s) + s.queue == s.taken;
    assert Flatten(s.sent) + s.pending + Carried(s) == Flatten(s.sent);
  }

  /** The service neither errs nor rejects a record. */
  predicate Healthy(step: Step) { !step.PutErrored? && (step.PutReturned? ==> step.failedPut == 0) }

  lemma {:induction false} HealthyFailsNothing(s: State, steps: seq<Step>)
    requires CanRun(s, steps) && forall i :: 0 <= i < |steps| ==> Healthy(steps[i])
    ensures Run(s, steps).failed == s.failed
    decreases |steps|
  {
    if steps != [] {
      assert Healthy(steps[0]);
      HealthyFailsNothing(Do(s, steps[0]), steps[1..]);
    }
  }

  /** With a service that always errs nothing is ever counted as delivered. */
  lemma {:induction false} DeadServiceDeliversNothing(s: State, steps: seq<Step>)
    requires CanRun(s, steps) && !s.pc.Counting? && forall i :: 0 <= i < |steps| ==> !steps[i].PutReturned?
    ensures Run(s, steps).delivered == s.delivered && !Run(s, steps).pc.Counting?
    decreases |steps|
  {
    if steps != [] {
      assert !steps[0].PutReturned?;
      DeadServiceDeliversNothing(Do(s, steps[0]), steps[1..]);
    }
  }

  /** With a healthy service, a clean shutdown has delivered every accepted event that
      encodes, and dropped exactly the rest. */
  lemma HealthyShutdownDeliversAll(capacity: nat, steps: seq<Step>)
    requires CanRun(Start(capacity), steps) && forall i :: 0 <= i < |steps| ==> Healthy(steps[i])
    requires var t := Run(Start(capacity), steps); t.pc.Exited? && t.queue == [] && t.rejecting == 0
    ensures var t := Run(Start(capacity), steps);
            && t.failed == 0 && t.delivered == |Encodable(t.accepted)|
            && t.dropped == t.emits - |Encodable(t.accepted)|
  {
    var t := Run(Start(capacity), steps);
    StartInv(capacity);
    RunKeepsInv(Start(capacity), steps);
    HealthyFailsNothing(Start(capacity), steps);
    EmptiedIsDone(t);
  }

  /** The batches still to come once the worker drains, if nothing more is emitted. */
  function ToCome(s: State): seq<seq<Record>>
    requires Draining(s)
  {
    match s.pc
    case Select(_) => Drained(s.pending, Encodable(s.queue))
    case Hand(e, _) => Drained(s.pending, Encodable([e] + s.queue))
    case Sending(Append(r, _)) => [s.pending] + Drained([r], Encodable(s.queue))
    case Counting(_, Append(r, _)) => [s.pending] + Drained([r], Encodable(s.queue))
    case Sending(_) => [s.pending]
    case Counting(_, _) => [s.pending]
    case Exited => []
  }

  lemma ProcessKeepsPlan(s: State)
    requires Inv(s) && s.pc.Hand? && Draining(s)
    ensures ToCome(s) == ToCome(Processed(s))
  {
    assert ([s.pc.event] + s.queue)[1..] == s.queue;
    var rs := Encodable([s.pc.event] + s.queue);
    if Encode(s.pc.event).Some? {
      assert rs[0] == Encode(s.pc.event).value && rs[1..] == Encodable(s.queue);
      assert s.pending == [] ==> s.pending + [rs[0]] == [rs[0]];
    }
  }

  lemma ReceiveKeepsPlan(s: State)
    requires Draining(s) && Enabled(s, Receive)
    ensures Draining(Do(s, Receive)) && ToCome(Do(s, Receive)) == ToCome(s)
  {
    assert [s.queue[0]] + s.queue[1..] == s.queue;
  }

  lemma FlushKeepsPlan(s: State, step: Step)
    requires Draining(s) && Enabled(s, step) && Ends(step) && !step.Process?
    ensures var t := Do(s, step); Draining(t) && t.sent == s.sent + [s.pending] && ToCome(s) == [s.pending] + ToCome(t)
  {
  }

  lemma QuietKeepsPlan(s: State, step: Step)
    requires Draining(s) && Enabled(s, step) && !Sends(step)
    requires !step.Receive? && !Ends(step)
    ensures var t := Do(s, step); Draining(t) && t.sent == s.sent && ToCome(t) == ToCome(s)
  {
  }

  lemma DrainStepKeepsPlan(s: State, step: Step)
    requires Inv(s) && Draining(s) && Enabled(s, step) && !Sends(step)
    ensures Draining(Do(s, step))
    ensures Do(s, step).sent + ToCome(Do(s, step)) == s.sent + ToCome(s)
  {
    if step.Process? {
      ProcessKeepsPlan(s);
    } else if step.Receive? {
      ReceiveKeepsPlan(s);
    } else if Ends(step) {
      FlushKeepsPlan(s, step);
      Associative(s.sent, [s.pending], ToCome(Do(s, step)));
    } else {
      QuietKeepsPlan(s, step);
    }
  }

  lemma {:induction false} DrainSendsThePlan(s: State, steps: seq<Step>)
    requires Inv(s) && Draining(s) && CanRun(s, steps) && NoSends(steps)
    ensures var t := Run(s, steps); Draining(t) && t.sent + ToCome(t) == s.sent + ToCome(s)
    decreases |steps|
  {
    if steps != [] {
      StepKeepsInv(s, steps[0]);
      assert !Sends(steps[0]);
      DrainStepKeepsPlan(s, steps[0]);
      DrainSendsThePlan(Do(s, steps[0]), steps[1..]);
    }
  }

  /** Whatever the interleaving, a drain during which nothing is emitted sends the pending
      records and the encodable queue as a legal split, and no way of cutting their events,
      in order, into batches the service accepts is shorter. */
  lemma DrainedBatchesAreOptimal(s: State, steps: seq<Step>, split: seq<seq<Event>>)
    requires Reachable(s) && s.pc == Select(true) && CanRun(s, steps) && NoSends(steps)
    requires Run(s, steps).pc.Exited?
    requires IsEventSplit(split, Events(s.pending + Encodable(s.queue)))
    ensures var t := Run(s, steps);
            exists tail :: t.sent == s.sent + tail
                           && IsSplit(tail, s.pending + Encodable(s.queue)) && |tail| <= |split|
  {
    ReachableInv(s);
    RecordsAreFaithful(s);
    DrainSendsThePlan(s, steps);
    DrainIsOptimalOverEvents(s.pending, s.queue, split);
    EncodableSizes(s.queue);
    DrainedIsSplit(s.pending, Encodable(s.queue));
    var t := Run(s, steps);
    assert t.sent + [] == t.sent;
    assert t.sent == s.sent + Drained(s.pending, Encodable(s.queue));
  }

  // ----- What the counters mean -----

  /** The records the service did not take, by its own answers: all of a batch when the call
      errs, otherwise as many as it reports. */
  function Unserved(s: State, steps: seq<Step>): nat
    requires CanRun(s, steps)
    decreases |steps|
  {
    if steps == [] then 0
    else
      (match steps[0]
       case PutErrored => |s.pending|
       case PutReturned(f) => f
       case _ => 0) + Unserved(Do(s, steps[0]), steps[1..])
  }

  lemma {:induction false} FailedCountsUnserved(s: State, steps: seq<Step>)
    requires CanRun(s, steps)
    ensures Run(s, steps).failed == s.failed + Unserved(s, steps)
    decreases |steps|
  {
    if steps != [] {
      FailedCountsUnserved(Do(s, steps[0]), steps[1..]);
    }
  }

  /** The Emit calls that came while the channel was full. */
  function Overflows(s: State, steps: seq<Step>): nat
    requires CanRun(s, steps)
    decreases |steps|
  {
    if steps == [] then 0
    else
      (if (steps[0].EmitAccept? || steps[0].EmitReject?) && |s.queue| >= s.capacity then 1 else 0)
      + Overflows(Do(s, steps[0]), steps[1..])
  }

  /** The channel takes an event exactly when it has room. */
  lemma {:induction false} OverflowsAreNotAccepted(s: State, steps: seq<Step>)
    requires CanRun(s, steps)
    ensures Run(s, steps).emits - |Run(s, steps).accepted| == s.emits - |s.accepted| + Overflows(s, steps)
    decreases |steps|
  {
    if steps != [] {
      OverflowsAreNotAccepted(Do(s, steps[0]), steps[1..]);
    }
  }

  /** The counters, in every run: failed is what the service did not take, delivered the rest
      of the finished batches, and dropped what was refused or found the buffer full. */
  lemma CountersAreRight(capacity: nat, steps: seq<Step>)
    requires CanRun(Start(capacity), steps)
    ensures var t := Run(Start(capacity), steps);
            && t.failed == Unserved(Start(capacity), steps)
            && (!t.pc.Counting? ==> t.delivered + t.failed == |Flatten(t.sent)|)
            && t.dropped + t.rejecting == |t.refused| + Overflows(Start(capacity), steps)
  {
    StartInv(capacity);
    RunKeepsInv(Start(capacity), steps);
    FailedCountsUnserved(Start(capacity), steps);
    OverflowsAreNotAccepted(Start(capacity), steps);
  }

  // ----- Termination of the drain -----

  predicate IsWorkers(step: Step) {
    !step.EmitAccept? && !step.EmitReject? && !step.CountReject? && !step.CloseDone?
  }

  function Rank(s: State): nat {
    4 * |s.queue| + match s.pc
    case Select(d) => if d then 3 else 4
    case Hand(_, d) => if d then 6 else 7
    case Sending(n) => 2 + RankOfThen(n)
    case Counting(_, n) => 1 + RankOfThen(n)
    case Exited => 0
  }

  function RankOfThen(next: Then): nat {
    match next
    case Reselect => 4
    case Append(_, d) => if d then 3 else 4
    case Exit => 0
  }

  function CountSteps(steps: seq<Step>): (n: (nat, nat)) {
    if steps == [] then (0, 0)
    else
      var (work, ticks) := CountSteps(steps[1..]);
      (work + (if IsWorkers(steps[0]) then 1 else 0), ticks + (if steps[0].Tick? then 1 else 0))
  }

  lemma StepLowersRank(s: State, step: Step)
    requires Enabled(s, step) && !Sends(step)
    ensures Rank(Do(s, step)) + (if IsWorkers(step) then 1 else 0) <= Rank(s) + (if step.Tick? then 3 else 0)
  {
  }

  /** With nothing more emitted, the worker takes a bounded number of steps however the ready
      select cases are chosen: a fixed number, plus three for each tick it receives. */
  lemma {:induction false} DrainTerminates(s: State, steps: seq<Step>)
    requires CanRun(s, steps) && NoSends(steps)
    ensures CountSteps(steps).0 + Rank(Run(s, steps)) <= Rank(s) + 3 * CountSteps(steps).1
    decreases |steps|
  {
    if steps != [] {
      assert !Sends(steps[0]);
      StepLowersRank(s, steps[0]);
      DrainTerminates(Do(s, steps[0]), steps[1..]);
    }
  }

  /** After `Close` the worker is never stuck: until it exits, some step other than a tick
      is open to it. */
  lemma DrainNeverSticks(s: State)
    requires s.closed && !s.pc.Exited?
    ensures exists step :: IsWorkers(step) && !step.Tick? && Enabled(s, step)
  {
    var step := match s.pc
      case Select(d) => if d && s.queue == [] then DrainEmpty else if d then Receive else SeeDone
      case Hand(_, _) => Process
      case Sending(_) => PutErrored
      case _ => CountDelivered;
    assert IsWorkers(step) && !step.Tick? && Enabled(s, step);
  }
}
