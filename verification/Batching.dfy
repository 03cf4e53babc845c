/** The event schema, its encoding, and the batching rule of the Firehose worker. */
module Batching {
  import opened Common

  const MAX_RECORDS: nat := 500
  const MAX_BATCH_BYTES: nat := 4 * 1024 * 1024
  const MAX_RECORD_BYTES: nat := 1024 * 1024

  /** One transaction as the data lake sees it. `json` is the length of its JSON
      rendering, or None when marshalling it fails. */
  datatype Event = Event(id: int, timestamp: int, amount: real, category: string,
                         aiProvider: string, severity: string, json: Option<nat>)

  datatype Record = Record(event: Event, size: nat)

  /** The newline terminator counts towards the size, and an oversized record is refused. */
  function Encode(e: Event): Option<Record> {
    match e.json
    case None => None
    case Some(n) => if n + 1 > MAX_RECORD_BYTES then None else Some(Record(e, n + 1))
  }

  function Encodable(es: seq<Event>): seq<Record> {
    if es == [] then []
    else if Encode(es[0]).Some? then [Encode(es[0]).value] + Encodable(es[1..])
    else Encodable(es[1..])
  }

  function Unencodable(es: seq<Event>): seq<Event> {
    if es == [] then []
    else if Encode(es[0]).Some? then Unencodable(es[1..])
    else [es[0]] + Unencodable(es[1..])
  }

  lemma {:induction false} EncodableAppend(es: seq<Event>, fs: seq<Event>)
    ensures Encodable(es + fs) == Encodable(es) + Encodable(fs)
    ensures Unencodable(es + fs) == Unencodable(es) + Unencodable(fs)
  {
    if es == [] {
      assert es + fs == fs;
    } else {
      assert (es + fs)[0] == es[0] && (es + fs)[1..] == es[1..] + fs;
      EncodableAppend(es[1..], fs);
      if Encode(es[0]).Some? {
        Associative([Encode(es[0]).value], Encodable(es[1..]), Encodable(fs));
      } else {
        Associative([es[0]], Unencodable(es[1..]), Unencodable(fs));
      }
    }
  }

  lemma EncodableSnoc(es: seq<Event>, e: Event)
    ensures Encodable(es + [e]) == if Encode(e).Some? then Encodable(es) + [Encode(e).value] else Encodable(es)
    ensures Unencodable(es + [e]) == if Encode(e).Some? then Unencodable(es) else Unencodable(es) + [e]
  {
    EncodableAppend(es, [e]);
    assert [e][1..] == [];
  }

  lemma {:induction false} EncodableSizes(es: seq<Event>)
    ensures Sized(Encodable(es))
    ensures |Encodable(es)| + |Unencodable(es)| == |es|
  {
    if es != [] {
      EncodableSizes(es[1..]);
    }
  }

  function Bytes(rs: seq<Record>): nat {
    if rs == [] then 0 else Bytes(rs[..|rs| - 1]) + rs[|rs| - 1].size
  }

  predicate Sized(rs: seq<Record>) {
    forall i :: 0 <= i < |rs| ==> 1 <= rs[i].size <= MAX_RECORD_BYTES
  }

  /** The service limits on one batch. */
  predicate Fits(batch: seq<Record>) {
    |batch| <= MAX_RECORDS && Bytes(batch) <= MAX_BATCH_BYTES
  }

  /** The worker's flush-before-append test. */
  predicate Breaches(open: seq<Record>, r: Record) {
    |open| >= MAX_RECORDS || Bytes(open) + r.size > MAX_BATCH_BYTES
  }

  /** A flush sends nothing when nothing is pending. */
  function Flushed(open: seq<Record>): (batches: seq<seq<Record>>) {
    if open == [] then [] else [open]
  }

  /** The batches a drain sends for the open batch followed by `rs`. */
  function Drained(open: seq<Record>, rs: seq<Record>): seq<seq<Record>>
    decreases |rs|
  {
    if rs == [] then Flushed(open)
    else if Breaches(open, rs[0]) then Flushed(open) + Drained([rs[0]], rs[1..])
    else Drained(open + [rs[0]], rs[1..])
  }

  /** `batches` cuts `rs` into runs the service accepts, in order. */
  ghost predicate IsSplit(batches: seq<seq<Record>>, rs: seq<Record>) {
    Flatten(batches) == rs && forall i :: 0 <= i < |batches| ==> Fits(batches[i])
  }

  lemma {:induction false} BytesAppend(a: seq<Record>, b: seq<Record>)
    ensures Bytes(a + b) == Bytes(a) + Bytes(b)
    decreases |b|
  {
    if b == [] {
      assert a + b == a;
    } else {
      var init := b[..|b| - 1];
      assert (a + b)[..|a + b| - 1] == a + init;
      BytesAppend(a, init);
    }
  }

  lemma FlattenFlushed(open: seq<Record>)
    ensures Flatten(Flushed(open)) == open
  {
    FlattenSnoc([], open);
    assert [] + [open] == [open];
  }

  /** A drain sends a legal split with no empty batch. */
  lemma {:induction false} DrainedIsSplit(open: seq<Record>, rs: seq<Record>)
    requires Fits(open) && Sized(rs)
    ensures IsSplit(Drained(open, rs), open + rs)
    ensures forall i :: 0 <= i < |Drained(open, rs)| ==> Drained(open, rs)[i] != []
    decreases |rs|
  {
    FlattenFlushed(open);
    if rs == [] {
      assert open + rs == open;
    } else if Breaches(open, rs[0]) {
      BytesAppend([], [rs[0]]);
      assert [] + [rs[0]] == [rs[0]];
      DrainedIsSplit([rs[0]], rs[1..]);
      FlattenAppend(Flushed(open), Drained([rs[0]], rs[1..]));
      assert [rs[0]] + rs[1..] == rs;
    } else {
      BytesAppend(open, [rs[0]]);
      DrainedIsSplit(open + [rs[0]], rs[1..]);
      Associative(open, [rs[0]], rs[1..]);
      assert [rs[0]] + rs[1..] == rs;
    }
  }

  /** A lighter open batch never costs more batches, and saves at most one. */
  lemma {:induction false} LighterIsNoWorse(light: seq<Record>, heavy: seq<Record>, rs: seq<Record>)
    requires |light| <= |heavy| && Bytes(light) <= Bytes(heavy)
    ensures |Drained(light, rs)| <= |Drained(heavy, rs)| <= |Drained(light, rs)| + 1
    decreases |rs|
  {
    if rs != [] {
      var r := rs[0];
      BytesAppend(light, [r]);
      BytesAppend(heavy, [r]);
      if Breaches(light, r) || !Breaches(heavy, r) {
        LighterIsNoWorse(light + [r], heavy + [r], rs[1..]);
      } else {
        BytesAppend([], [r]);
        assert [] + [r] == [r];
        LighterIsNoWorse([r], light + [r], rs[1..]);
      }
    }
  }

  /** Records that fit together are all still in the open batch after being received. */
  lemma {:induction false} FittingPrefixStaysOpen(open: seq<Record>, first: seq<Record>, rs: seq<Record>)
    requires Fits(open + first)
    ensures Drained(open, first + rs) == Drained(open + first, rs)
    decreases |first|
  {
    if first == [] {
      assert first + rs == rs && open + first == open;
    } else {
      var r := first[0];
      assert open + first == open + [r] + first[1..];
      BytesAppend(open + [r], first[1..]);
      BytesAppend(open, [r]);
      BytesAppend([], [r]);
      assert [] + [r] == [r];
      assert (first + rs)[1..] == first[1..] + rs;
      FittingPrefixStaysOpen(open + [r], first[1..], rs);
    }
  }

  /** No legal split of the same records uses fewer batches than the drain. */
  lemma {:induction false} DrainIsOptimal(rs: seq<Record>, batches: seq<seq<Record>>)
    requires IsSplit(batches, rs)
    ensures |Drained([], rs)| <= |batches|
    decreases |batches|
  {
    if batches != [] {
      var first, rest := batches[0], Flatten(batches[1..]);
      assert rs == first + rest;
      assert [] + first == first;
      FittingPrefixStaysOpen([], first, rest);
      LighterIsNoWorse([], first, rest);
      DrainIsOptimal(rest, batches[1..]);
    }
  }

  /** The greedy flush rule is optimal from any pending batch: the drain sends a legal
      order-preserving split of the pending records and the encodable part of the queue,
      and no legal split of them is shorter. */
  lemma ShutdownDrainIsOptimal(pending: seq<Record>, queue: seq<Event>, batches: seq<seq<Record>>)
    requires Fits(pending)
    requires IsSplit(batches, pending + Encodable(queue))
    ensures IsSplit(Drained(pending, Encodable(queue)), pending + Encodable(queue))
    ensures |Drained(pending, Encodable(queue))| <= |batches|
  {
    EncodableSizes(queue);
    DrainedIsSplit(pending, Encodable(queue));
    assert [] + pending == pending;
    FittingPrefixStaysOpen([], pending, Encodable(queue));
    DrainIsOptimal(pending + Encodable(queue), batches);
  }

  // ----- The limits in terms of the events -----

  /** What the service receives for an event: its JSON and a newline. */
  predicate Sendable(e: Event) { e.json.Some? && e.json.value + 1 <= 1048576 }

  /** The bytes of a batch as the service receives it. */
  function Payload(es: seq<Event>): nat {
    if es == [] then 0
    else Payload(es[..|es| - 1]) + (if es[|es| - 1].json.Some? then es[|es| - 1].json.value + 1 else 0)
  }

  /** A batch the service accepts: at most 500 records, 1 MiB each and 4 MiB in all. */
  predicate Acceptable(es: seq<Event>) {
    |es| <= 500 && Payload(es) <= 4194304 && forall i :: 0 <= i < |es| ==> Sendable(es[i])
  }

  function Events(rs: seq<Record>): seq<Event> { Each(rs, (r: Record) => r.event) }

  /** The records are what their events encode to. */
  predicate Faithful(rs: seq<Record>) {
    forall i :: 0 <= i < |rs| ==> Encode(rs[i].event) == Some(rs[i])
  }

  lemma EncodesIffSendable(e: Event)
    ensures Encode(e).Some? <==> Sendable(e)
    ensures Sendable(e) ==> Encode(e).value.event == e && Encode(e).value.size == e.json.value + 1
  {
  }

  lemma {:induction false} EncodableIsFaithful(es: seq<Event>)
    ensures Faithful(Encodable(es))
  {
    if es != [] {
      EncodableIsFaithful(es[1..]);
    }
  }

  lemma {:induction false} PayloadIsBytes(rs: seq<Record>)
    requires Faithful(rs)
    ensures Payload(Events(rs)) == Bytes(rs)
  {
    if rs != [] {
      var n := |rs| - 1;
      PayloadIsBytes(rs[..n]);
      assert Events(rs)[..n] == Events(rs[..n]);
      EncodesIffSendable(rs[n].event);
    }
  }

  lemma AcceptableIffFits(rs: seq<Record>)
    requires Faithful(rs)
    ensures Acceptable(Events(rs)) <==> Fits(rs)
  {
    PayloadIsBytes(rs);
    forall i | 0 <= i < |rs| ensures Sendable(Events(rs)[i]) {
      EncodesIffSendable(rs[i].event);
    }
  }

  /** Among the records the worker keeps an event exactly as often as it came, if it can be
      sent at all; among the refused, if it cannot. */
  lemma {:induction false} EncodableKeeps(es: seq<Event>, e: Event)
    ensures multiset(Events(Encodable(es)))[e] == if Sendable(e) then multiset(es)[e] else 0
    ensures multiset(Unencodable(es))[e] == if Sendable(e) then 0 else multiset(es)[e]
  {
    if es != [] {
      EncodableKeeps(es[1..], e);
      EncodesIffSendable(es[0]);
      MultisetCons(es[0], es[1..]);
      assert es == [es[0]] + es[1..];
      if Sendable(es[0]) {
        EventsCons(Encode(es[0]).value, Encodable(es[1..]));
        MultisetCons(es[0], Events(Encodable(es[1..])));
      } else {
        MultisetCons(es[0], Unencodable(es[1..]));
      }
    }
  }

  lemma MultisetCons<T>(x: T, xs: seq<T>)
    ensures multiset([x] + xs) == multiset{x} + multiset(xs)
  {
  }

  lemma EventsCons(r: Record, rs: seq<Record>)
    ensures Events([r] + rs) == [r.event] + Events(rs)
  {
  }

  lemma {:induction false} EncodableAllSendable(es: seq<Event>)
    requires forall i :: 0 <= i < |es| ==> Sendable(es[i])
    ensures Events(Encodable(es)) == es
  {
    if es != [] {
      EncodesIffSendable(es[0]);
      EncodableAllSendable(es[1..]);
      EventsCons(Encode(es[0]).value, Encodable(es[1..]));
    }
  }

  /** The events cut, in order, into batches the service accepts. */
  ghost predicate IsEventSplit(split: seq<seq<Event>>, es: seq<Event>) {
    Flatten(split) == es && forall i :: 0 <= i < |split| ==> Acceptable(split[i])
  }

  lemma {:induction false} SplitEncodes(split: seq<seq<Event>>) returns (batches: seq<seq<Record>>)
    requires forall i :: 0 <= i < |split| ==> Acceptable(split[i])
    ensures |batches| == |split| && IsSplit(batches, Encodable(Flatten(split)))
  {
    if split == [] {
      batches := [];
    } else {
      var rest := SplitEncodes(split[1..]);
      var first := Encodable(split[0]);
      batches := [first] + rest;
      EncodableIsFaithful(split[0]);
      EncodableAllSendable(split[0]);
      AcceptableIffFits(first);
      EncodableAppend(split[0], Flatten(split[1..]));
      assert batches[0] == first && batches[1..] == rest;
    }
  }

  lemma FaithfulEncode(rs: seq<Record>)
    requires Faithful(rs)
    ensures Encodable(Events(rs)) == rs
    decreases rs
  {
    if rs != [] {
      assert Events(rs)[0] == rs[0].event && Events(rs)[1..] == Events(rs[1..]);
      FaithfulEncode(rs[1..]);
      assert rs == [rs[0]] + rs[1..];
    }
  }

  /** No way of cutting the pending events and the sendable part of the queue, in order, into
      batches the service accepts uses fewer batches than the drain. */
  lemma DrainIsOptimalOverEvents(pending: seq<Record>, queue: seq<Event>, split: seq<seq<Event>>)
    requires Fits(pending) && Faithful(pending)
    requires IsEventSplit(split, Events(pending + Encodable(queue)))
    ensures |Drained(pending, Encodable(queue))| <= |split|
  {
    var rs := pending + Encodable(queue);
    EncodableIsFaithful(queue);
    var batches := SplitEncodes(split);
    FaithfulEncode(rs);
    ShutdownDrainIsOptimal(pending, queue, batches);
  }
}
