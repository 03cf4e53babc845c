/** The Firehose emitter itself: the buffered channel, the batching worker over its fixed
    batch buffer, and the wrapping counters, proved to move only as the step system does. */
module Firehose {
  import opened Common
  import opened Batching
  import opened EmitterProtocol

  const TWO_TO_64: nat := 0x1_0000_0000_0000_0000

  type int32 = x: int | -0x8000_0000 <= x < 0x8000_0000

  /** How PutRecordBatch answers: an error, or a response with its FailedPutCount
      (zero when the field is absent). */
  datatype Reply = Unavailable | Response(failedPut: int32)

  /** Unsigned 64-bit wrap-around. */
  function Wrap(x: int): nat { x % TWO_TO_64 }

  lemma WrapAdd(x: int, d: int)
    ensures Wrap(Wrap(x) + d) == Wrap(x + d)
  {
    var q := x / TWO_TO_64;
    assert x + d == (Wrap(x) + d) + q * TWO_TO_64;
    WrapShift(Wrap(x) + d, q);
  }

  lemma WrapShift(x: int, k: int)
    ensures Wrap(x + k * TWO_TO_64) == Wrap(x)
  {
    var r := Wrap(x);
    assert x + k * TWO_TO_64 == (x / TWO_TO_64 + k) * TWO_TO_64 + r;
  }

  lemma WrapApart(x: int, y: int)
    requires x < y < x + TWO_TO_64
    ensures Wrap(x) != Wrap(y)
  {
  }

  /** The failed and delivered counters after a delivery of `n` records. */
  function CountDelivery(failed: nat, delivered: nat, n: nat, reply: Reply): (nat, nat) {
    match reply
    case Unavailable => (Wrap(failed + n), delivered)
    case Response(f) => (if f > 0 then Wrap(failed + f) else failed, Wrap(delivered + (n - f)))
  }

  /** How many records of a batch of `n` the reply reports as failed. */
  function Failures(n: nat, reply: Reply): int {
    if reply.Unavailable? then n else reply.failedPut
  }

  lemma WrapSum(a: int, b: int)
    ensures Wrap(Wrap(a) + Wrap(b)) == Wrap(a + b)
  {
    WrapAdd(a, Wrap(b));
    WrapAdd(b, a);
  }

  /** The counters account for a whole batch exactly when the service does not report a
      negative FailedPutCount; a count above the batch size still cancels out modulo 2^64. */
  lemma DeliveryIsAccountedIff(failed: nat, delivered: nat, n: nat, reply: Reply)
    ensures var c := CountDelivery(failed, delivered, n, reply);
            Wrap(c.0 + c.1) == Wrap(failed + delivered + n) <==> (reply.Response? ==> reply.failedPut >= 0)
  {
    match reply
    case Unavailable => WrapAdd(failed + n, delivered);
    case Response(f) =>
      if f > 0 {
        WrapSum(failed + f, delivered + (n - f));
      } else {
        WrapAdd(delivered + (n - f), failed);
        if f < 0 {
          WrapApart(failed + delivered + n, failed + delivered + n - f);
        }
      }
  }

  /** A batch of one that the service reports as minus one failure counts as two delivered. */
  lemma NegativeCountMiscounts()
    ensures CountDelivery(0, 0, 1, Response(-1)) == (0, 2)
  {
  }

  /** With a reply in range, wrapping counters stay the wrapped forms of exact ones. */
  lemma CountDeliveryWraps(failed: nat, delivered: nat, n: nat, reply: Reply)
    requires 0 <= Failures(n, reply) <= n
    ensures CountDelivery(Wrap(failed), Wrap(delivered), n, reply)
         == (Wrap(failed + Failures(n, reply)), Wrap(delivered + (n - Failures(n, reply))))
  {
    WrapAdd(failed, Failures(n, reply));
    WrapAdd(delivered, n - Failures(n, reply));
  }

  /** `t` follows from `s` by steps of the step system. */
  ghost predicate Reaches(s: State, t: State) {
    exists steps :: CanRun(s, steps) && Run(s, steps) == t
  }

  lemma ReachesSelf(s: State)
    ensures Reaches(s, s)
  {
    assert CanRun(s, []) && Run(s, []) == s;
  }

  lemma ReachesThen(s: State, t: State, step: Step)
    requires Reaches(s, t) && Enabled(t, step)
    ensures Reaches(s, Do(t, step))
  {
    var steps :| CanRun(s, steps) && Run(s, steps) == t;
    assert [step][1..] == [];
    assert CanRun(Do(t, step), []) && Run(Do(t, step), []) == Do(t, step);
    assert CanRun(t, [step]) && Run(t, [step]) == Do(t, step);
    RunAppend(s, steps, [step]);
  }

  lemma ReachesTransitive(s: State, t: State, u: State)
    requires Reaches(s, t) && Reaches(t, u)
    ensures Reaches(s, u)
  {
    var a :| CanRun(s, a) && Run(s, a) == t;
    var b :| CanRun(t, b) && Run(t, b) == u;
    RunAppend(s, a, b);
  }

  lemma ReachableThen(s: State, t: State)
    requires Reachable(s) && Reaches(s, t)
    ensures Reachable(t)
  {
    var capacity: nat, a :| CanRun(Start(capacity), a) && Run(Start(capacity), a) == s;
    var b :| CanRun(s, b) && Run(s, b) == t;
    RunAppend(Start(capacity), a, b);
  }

  /** The batches sent and the batch pending once `e` has been received. */
  function Received(sent: seq<seq<Record>>, pending: seq<Record>, e: Event): (seq<seq<Record>>, seq<Record>) {
    match Encode(e)
    case None => (sent, pending)
    case Some(r) => if Breaches(pending, r) then (sent + Flushed(pending), [r]) else (sent, pending + [r])
  }

  lemma DrainedAfterReceive(sent: seq<seq<Record>>, pending: seq<Record>, es: seq<Event>)
    requires es != []
    ensures var (sent', pending') := Received(sent, pending, es[0]);
            sent' + Drained(pending', Encodable(es[1..])) == sent + Drained(pending, Encodable(es))
  {
    if Encode(es[0]).Some? {
      var r := Encode(es[0]).value;
      assert Encodable(es)[0] == r && Encodable(es)[1..] == Encodable(es[1..]);
      Associative(sent, Flushed(pending), Drained([r], Encodable(es[1..])));
    }
  }

  lemma ProcessedRecord(s: State, record: Record)
    requires s.pc.Hand? && Encode(s.pc.event) == Some(record)
    ensures record.event == s.pc.event && (Breaches(s.pending, record) ==> s.pending != [])
    ensures var t := s.(taken := s.taken + [s.pc.event]);
            Processed(s) == if Breaches(s.pending, record) then t.(pc := Sending(Append(record, s.pc.draining)))
                            else t.(pc := Select(s.pc.draining), pending := s.pending + [record])
    ensures Received(s.sent, s.pending, record.event)
         == if Breaches(s.pending, record) then (s.sent + [s.pending], [record]) else (s.sent, s.pending + [record])
  {
  }

  /** What the worker finds ready at its outer select, or what other goroutines do there. */
  datatype Choice = Arrives(e: Event) | Closes | EventReady | TickReady | DoneReady

  class FirehoseEmitter {
    const capacity: nat
    /** The answer to the k-th batch when it holds n records. */
    const service: (nat, nat) -> Reply
    var events: seq<Event>
    var done: bool
    var dropped: nat
    var delivered: nat
    var failed: nat
    const pending: array<Record>
    var count: nat
    var pendingBytes: nat
    var batches: nat
    /** The state of the step system this emitter is in. */
    ghost var state: State

    /** A response never reports more failures than records, nor fewer than none. */
    ghost predicate Honest() {
      forall k, n :: service(k, n).Response? ==> 0 <= service(k, n).failedPut <= n
    }

    ghost predicate Matches()
      reads this
    {
      && state.capacity == capacity && state.queue == events && state.closed == done
      && batches == |state.sent|
      && dropped == Wrap(state.dropped) && delivered == Wrap(state.delivered) && failed == Wrap(state.failed)
    }

    ghost predicate Holds(rs: seq<Record>)
      reads this, pending
    {
      && pending.Length == MAX_RECORDS && count <= MAX_RECORDS
      && pending[..count] == rs && pendingBytes == Bytes(rs)
    }

    ghost predicate Valid()
      reads this, pending
    {
      Honest() && Reachable(state) && Matches() && Holds(state.pending) && state.rejecting == 0
    }

    constructor (bufferSize: int, service: (nat, nat) -> Reply)
      requires forall k, n :: service(k, n).Response? ==> 0 <= service(k, n).failedPut <= n
      ensures Valid() && fresh(pending) && this.service == service
      ensures state == Start(if bufferSize <= 0 then 2048 else bufferSize)
    {
      capacity := if bufferSize <= 0 then 2048 else bufferSize;
      this.service := service;
      events, done, dropped, delivered, failed := [], false, 0, 0, 0;
      pending := new Record[MAX_RECORDS];
      count, pendingBytes, batches := 0, 0, 0;
      state := Start(if bufferSize <= 0 then 2048 else bufferSize);
      new;
      assert CanRun(Start(capacity), []) && EmitterProtocol.Run(Start(capacity), []) == state;
    }

    /** Moves the ghost state by one step of the step system. */
    ghost method Step(from: State, step: Step)
      requires Reaches(from, state) && Enabled(state, step)
      modifies this`state
      ensures state == Do(old(state), step) && Reaches(from, state)
    {
      ReachesThen(from, state, step);
      state := Do(state, step);
    }

    /** Queues the event, or counts it as dropped when the buffer is full; never waits. */
    method Emit(e: Event)
      requires Valid()
      modifies this
      ensures Valid() && Reaches(old(state), state)
      ensures events == if |old(events)| < capacity then old(events) + [e] else old(events)
      ensures dropped == if |old(events)| < capacity then old(dropped) else Wrap(old(dropped) + 1)
      ensures state.accepted == if |old(events)| < capacity then old(state.accepted) + [e] else old(state.accepted)
      ensures state.pc == old(state.pc) && state.pending == old(state.pending) && state.sent == old(state.sent)
    {
      ghost var from := state;
      ReachesSelf(from);
      if |events| < capacity {
        events := events + [e];
        Step(from, EmitAccept(e));
      } else {
        WrapAdd(state.dropped, 1);
        dropped := Wrap(dropped + 1);
        Step(from, EmitReject(e));
        Step(from, CountReject);
      }
      ReachableThen(from, state);
    }

    method Close()
      requires Valid() && !done
      modifies this
      ensures Valid() && Reaches(old(state), state) && state == Do(old(state), CloseDone)
    {
      ghost var from := state;
      ReachesSelf(from);
      Step(from, CloseDone);
      ReachableThen(from, state);
      done := true;
    }

    /** Sends one batch and counts the outcome, whatever the service reports. */
    method Deliver(n: nat)
      modifies this`failed, this`delivered, this`batches
      ensures (failed, delivered) == CountDelivery(old(failed), old(delivered), n, service(old(batches), n))
      ensures batches == old(batches) + 1
      ensures match service(old(batches), n)
              case Unavailable => failed == Wrap(old(failed) + n) && delivered == old(delivered)
              case Response(f) =>
                && delivered == Wrap(old(delivered) + (n - f))
                && failed == if f > 0 then Wrap(old(failed) + f) else old(failed)
    {
      var reply := service(batches, n);
      batches := batches + 1;
      if reply.Unavailable? {
        failed := Wrap(failed + n);
        return;
      }
      if reply.failedPut > 0 {
        failed := Wrap(failed + reply.failedPut);
      }
      delivered := Wrap(delivered + (n - reply.failedPut));
    }

    /** Sends what is pending, if anything; the worker then goes where `next` says. */
    method Flush(ghost from: State, ghost next: Then)
      requires Honest() && Matches() && Holds(state.pending) && Reaches(from, state)
      requires count > 0 ==> state.pc == Sending(next)
      modifies this
      ensures Matches() && Reaches(from, state) && count == 0 && pendingBytes == 0
      ensures old(count) == 0 ==> state == old(state)
      ensures old(count) > 0 ==> AfterFlushing(old(state), next, state)
    {
      if count == 0 {
        return;
      }
      ghost var reply := service(batches, count);
      assert |state.pending| == count && 0 <= Failures(count, reply) <= count;
      CountDeliveryWraps(state.failed, state.delivered, count, reply);
      Deliver(count);
      StepDelivery(from, next, reply);
      count, pendingBytes := 0, 0;
    }

    /** The steps of one delivery: the service call and the counter updates. */
    ghost method StepDelivery(from: State, next: Then, reply: Reply)
      requires Reaches(from, state) && state.pc == Sending(next)
      requires 0 <= Failures(|state.pending|, reply) <= |state.pending|
      modifies this`state
      ensures Reaches(from, state) && AfterFlushing(old(state), next, state)
      ensures var n, f := |old(state).pending|, Failures(|old(state).pending|, reply);
              state.failed == old(state).failed + f && state.delivered == old(state).delivered + (n - f)
    {
      if reply.Unavailable? {
        Step(from, PutErrored);
      } else {
        Step(from, PutReturned(reply.failedPut));
        Step(from, CountDelivered);
      }
    }

    /** Appends to the pending batch within its fixed capacity. */
    method Add(record: Record, ghost rs: seq<Record>)
      requires Holds(rs) && count < MAX_RECORDS
      modifies this`count, this`pendingBytes, pending
      ensures Holds(rs + [record])
    {
      BytesAppend(rs, [record]);
      BytesAppend([], [record]);
      assert [] + [record] == [record];
      pending[count] := record;
      count, pendingBytes := count + 1, pendingBytes + record.size;
      assert pending[..count] == rs + [record];
    }

    /** An event that does not encode is counted as dropped. */
    method Refuse(ghost from: State)
      requires Matches() && Reaches(from, state) && state.pc.Hand? && Encode(state.pc.event).None?
      modifies this`dropped, this`state
      ensures Matches() && Reaches(from, state) && state == Processed(old(state))
    {
      WrapAdd(state.dropped, 1);
      dropped := Wrap(dropped + 1);
      Step(from, Process);
    }

    method FlushThenAdd(ghost from: State, record: Record, ghost draining: bool)
      requires Honest() && Matches() && Holds(state.pending) && Reaches(from, state)
      requires count > 0 && state.pc == Sending(Append(record, draining))
      modifies this, pending
      ensures Matches() && Reaches(from, state) && Holds([record])
      ensures AfterFlushing(old(state), Append(record, draining), state)
    {
      Flush(from, Append(record, draining));
      assert pending[..count] == [];
      Add(record, []);
      assert [] + [record] == [record];
    }

    /** Adds an encoded record to the batch, flushing first when it would breach a limit. */
    method Store(ghost from: State, record: Record)
      requires Honest() && Matches() && Holds(state.pending) && Reaches(from, state)
      requires state.pc.Hand? && Encode(state.pc.event) == Some(record)
      modifies this, pending
      ensures Matches() && Holds(state.pending) && Reaches(from, state)
      ensures Stored(old(state), record, state)
    {
      ghost var s := state;
      ProcessedRecord(s, record);
      Step(from, Process);
      if count >= MAX_RECORDS || pendingBytes + record.size > MAX_BATCH_BYTES {
        assert Breaches(s.pending, record);
        FlushThenAdd(from, record, s.pc.draining);
      } else {
        assert !Breaches(s.pending, record);
        Add(record, s.pending);
      }
    }

    /** Takes one event off the channel, encodes it and adds it to the batch. */
    method Receive(ghost draining: bool)
      requires Valid() && events != [] && state.pc == Select(draining)
      modifies this, pending
      ensures Valid() && Reaches(old(state), state) && state.pc == Select(draining)
      ensures events == old(events)[1..] && done == old(done) && state.accepted == old(state.accepted)
      ensures (state.sent, state.pending) == Received(old(state).sent, old(state).pending, old(events)[0])
      ensures state.dropped == old(state).dropped + (if Encode(old(events)[0]).None? then 1 else 0)
    {
      ghost var from := state;
      ReachesSelf(from);
      var event := events[0];
      events := events[1..];
      Step(from, EmitterProtocol.Receive);
      match Encode(event) {
        case None => Refuse(from);
        case Some(record) => Store(from, record);
      }
      ReachableThen(from, state);
    }

    /** The ticker's case of the select. */
    method Tick()
      requires Valid() && state.pc == Select(false)
      modifies this
      ensures Valid() && Reaches(old(state), state) && state.pc == Select(false)
      ensures events == old(events) && done == old(done) && state.accepted == old(state.accepted)
      ensures state.sent == old(state).sent + Flushed(old(state).pending) && state.pending == []
    {
      ghost var from := state;
      ReachesSelf(from);
      Step(from, EmitterProtocol.Tick);
      Flush(from, Reselect);
      ReachableThen(from, state);
      assert pending[..0] == [];
    }

    /** The drain: receive until the queue is empty, flush what is left, and exit. */
    method Drain()
      requires Valid() && done && state.pc == Select(false)
      modifies this, pending
      ensures Valid() && Reaches(old(state), state) && state.pc == Exited && events == []
      ensures state.accepted == old(state.accepted) && state.pending == []
      ensures state.sent == old(state).sent + Drained(old(state).pending, Encodable(old(events)))
      ensures state.dropped == old(state).dropped + |Unencodable(old(events))|
    {
      ghost var from := state;
      ReachesSelf(from);
      Step(from, SeeDone);
      ReachableThen(from, state);
      while events != []
        invariant Valid() && Reaches(from, state) && state.pc == Select(true) && state.accepted == from.accepted
        invariant state.sent + Drained(state.pending, Encodable(events))
               == from.sent + Drained(from.pending, Encodable(from.queue))
        invariant state.dropped + |Unencodable(events)| == from.dropped + |Unencodable(from.queue)|
        decreases |events|
      {
        ghost var s := state;
        DrainedAfterReceive(s.sent, s.pending, events);
        Receive(true);
        ReachesTransitive(from, s, state);
      }
      Finish(from);
    }

    /** The end of the drain: the last flush, then the worker returns. */
    method Finish(ghost from: State)
      requires Valid() && Reaches(from, state) && Reachable(from) && state.pc == Select(true) && events == []
      modifies this
      ensures Valid() && Reaches(from, state) && state.pc == Exited && events == []
      ensures state.accepted == old(state.accepted) && state.pending == [] && state.dropped == old(state.dropped)
      ensures state.sent == old(state).sent + Flushed(old(state).pending)
    {
      Step(from, DrainEmpty);
      Flush(from, Exit);
      ReachableThen(from, state);
      assert pending[..0] == [];
    }

    /** The worker's loop over the ready cases of its select, one choice at a time, with the
        other goroutines running in between; a case that is not ready is not chosen. */
    method Run(choices: seq<Choice>) returns (exited: bool, ghost path: seq<State>)
      requires Valid() && state.pc == Select(false)
      modifies this, pending
      ensures Valid() && Reaches(old(state), state)
      ensures exited ==> state.pc == Exited && events == [] && count == 0
      ensures !exited ==> state.pc == Select(false) && |path| == |choices| + 1
      ensures 1 <= |path| <= |choices| + 1 && path[0] == old(state) && path[|path| - 1] == state
      ensures forall k :: 0 <= k < |path| - 1 ==> Serves(path[k], choices[k], path[k + 1])
    {
      ghost var from := state;
      ReachesSelf(from);
      path := [from];
      for i := 0 to |choices|
        invariant Valid() && Reaches(from, state) && state.pc == Select(false)
        invariant |path| == i + 1 && path[0] == from && path[i] == state
        invariant forall k :: 0 <= k < i ==> Serves(path[k], choices[k], path[k + 1])
      {
        ghost var s := state;
        exited := Serve(choices[i]);
        ReachesTransitive(from, s, state);
        path := path + [state];
        if exited {
          return;
        }
      }
      return false, path;
    }

    /** One turn of the outer select. */
    method Serve(choice: Choice) returns (exited: bool)
      requires Valid() && state.pc == Select(false)
      modifies this, pending
      ensures Valid() && Reaches(old(state), state) && Serves(old(state), choice, state)
      ensures exited <==> choice.DoneReady? && old(done)
      ensures state.pc == if exited then Exited else Select(false)
      ensures exited ==> events == [] && count == 0
    {
      ReachesSelf(state);
      exited := false;
      match choice {
        case Arrives(e) => Emit(e);
        case Closes => if !done { Close(); }
        case EventReady => if events != [] { Receive(false); }
        case TickReady => Tick();
        case DoneReady =>
          if done {
            Drain();
            exited := true;
          }
      }
    }
  }

  /** What serving a choice does to the batches, the pending batch and the channel. */
  ghost predicate Serves(s: State, choice: Choice, t: State) {
    match choice
    case Arrives(e) =>
      && t.accepted == (if |s.queue| < s.capacity then s.accepted + [e] else s.accepted)
      && t.sent == s.sent && t.pending == s.pending
    case Closes => t == s.(closed := true)
    case EventReady =>
      if s.queue == [] then t == s
      else t.queue == s.queue[1..] && (t.sent, t.pending) == Received(s.sent, s.pending, s.queue[0])
    case TickReady => t.queue == s.queue && t.sent == s.sent + Flushed(s.pending) && t.pending == []
    case DoneReady =>
      if !s.closed then t == s
      else t.queue == [] && t.sent == s.sent + Drained(s.pending, Encodable(s.queue))
  }

  /** The record is pending, after whatever a flush before it sent. */
  ghost predicate Stored(s: State, record: Record, t: State)
    requires s.pc.Hand?
  {
    && t.pc == Select(s.pc.draining) && t.queue == s.queue && t.closed == s.closed
    && t.accepted == s.accepted && t.dropped == s.dropped && t.rejecting == s.rejecting
    && (t.sent, t.pending) == Received(s.sent, s.pending, record.event)
  }

  /** The pending batch has been sent and counted, and nothing else has changed. */
  ghost predicate AfterFlushing(s: State, next: Then, t: State) {
    t == AfterFlush(s.(failed := t.failed, delivered := t.delivered), next)
  }
}
