/** The whole path of a transaction to the lake: committed by the handler, emitted, batched
    and delivered at least once, then read by the nightly job and appended to the curated
    dataset. */
module Lake {
  import opened Common
  import opened Ledger
  import opened WritePath
  import Batching
  import Emitter = EmitterProtocol

  type Event = Batching.Event

  /** A JSON row of the landing zone; an absent field is null. */
  datatype RawRow = RawRow(id: int, timestamp: Option<int>, amount: real, category: Option<string>,
                           aiProvider: Option<string>, severity: Option<string>)

  datatype CuratedRow = CuratedRow(id: int, at: Option<int>, amount: real, aiProvider: string,
                                   severity: string, date: int, category: string)

  /** The optional fields are omitted when empty. */
  function RawOf(e: Event): RawRow {
    RawRow(e.id, Some(e.timestamp), e.amount, Some(e.category),
           if e.aiProvider == "" then None else Some(e.aiProvider),
           if e.severity == "" then None else Some(e.severity))
  }

  function Coalesce<T>(x: Option<T>, default: T): T { if x.Some? then x.value else default }

  /** The job's column expressions for one row. */
  function Curate(r: RawRow, today: int): CuratedRow {
    CuratedRow(r.id, r.timestamp, r.amount, Coalesce(r.aiProvider, "none"), Coalesce(r.severity, "none"),
               if r.timestamp.Some? then Day(r.timestamp.value) else today, Coalesce(r.category, "other"))
  }

  function CurateAll(rs: seq<RawRow>, today: int): (cs: seq<CuratedRow>)
    ensures |cs| == |rs|
  {
    seq(|rs|, i requires 0 <= i < |rs| => Curate(rs[i], today))
  }

  /** Nothing in the curated dataset is null: absent fields become "none", "other" and today. */
  lemma AbsentFieldsHaveDefaults(r: RawRow, today: int)
    ensures r.severity == None ==> Curate(r, today).severity == "none"
    ensures r.aiProvider == None ==> Curate(r, today).aiProvider == "none"
    ensures r.category == None ==> Curate(r, today).category == "other"
    ensures r.timestamp == None ==> Curate(r, today).date == today
  {
  }

  /** Dropping duplicates keeps one row of each id, whichever the engine meets first. */
  ghost predicate IsDeduplicated(kept: seq<RawRow>, read: seq<RawRow>) {
    && (forall i, j :: 0 <= i < j < |kept| ==> kept[i].id != kept[j].id)
    && (forall r :: r in kept ==> r in read)
    && (forall r :: r in read ==> HasId(kept, r.id))
  }

  predicate HasId(rs: seq<RawRow>, id: int) {
    exists i :: 0 <= i < |rs| && rs[i].id == id
  }

  datatype State = State(
    rows: seq<Txn>,             // committed transactions
    unsent: seq<Txn>,           // of those, the ones whose handler has yet to emit
    emitter: Emitter.State,
    raw: seq<seq<RawRow>>,      // objects of the landing zone, in arrival order
    bookmark: nat,              // objects the job has recorded as consumed
    running: Option<nat>,       // objects read by a pass that has written but not committed
    passes: seq<seq<RawRow>>,   // what each writing pass read
    curated: seq<CuratedRow>,
    crashes: nat                // passes that wrote and then failed to commit the bookmark
  )

  function Start(capacity: nat): State {
    State.State([], [], Emitter.Start(capacity), [], 0, None, [], [], 0)
  }

  /** `Land` is the service writing an object from records it was handed, as often as it
      likes; `Lose` is a handler dying between its commit and its emit. */
  datatype Step =
    | CommitRow(t: Txn) | EmitRow(i: nat, json: Option<nat>) | Lose(i: nat) | Pipe(step: Emitter.Step)
    | Land(events: seq<Event>)
    | EtlWrite(kept: seq<RawRow>, today: int) | EtlIdle | EtlCommit | EtlCrash

  predicate Known(rows: seq<Txn>, id: nat) {
    exists i :: 0 <= i < |rows| && rows[i].id == id
  }

  /** The service has been handed this event. */
  predicate Handed(e: Emitter.State, event: Event) {
    || (exists i :: 0 <= i < |Flatten(e.sent)| && Flatten(e.sent)[i].event == event)
    || ((e.pc.Sending? || e.pc.Counting?) && exists i :: 0 <= i < |e.pending| && e.pending[i].event == event)
  }

  predicate EmitterInternal(step: Emitter.Step) { !step.EmitAccept? && !step.EmitReject? }

  function Unread(s: State): seq<RawRow>
    requires s.bookmark <= |s.raw|
  {
    Flatten(s.raw[s.bookmark..])
  }

  ghost predicate Enabled(s: State, step: Step) {
    match step
    case CommitRow(t) => !Known(s.rows, t.id) && IsCategory(t.category)
    case EmitRow(i, _) => i < |s.unsent|
    case Lose(i) => i < |s.unsent|
    case Pipe(p) => EmitterInternal(p) && Emitter.Enabled(s.emitter, p)
    case Land(events) => forall i :: 0 <= i < |events| ==> Handed(s.emitter, events[i])
    case EtlWrite(kept, _) =>
      s.running == None && s.bookmark <= |s.raw| && Unread(s) != [] && IsDeduplicated(kept, Unread(s))
    case EtlIdle => s.running == None && s.bookmark <= |s.raw| && Unread(s) == []
    case EtlCommit => s.running.Some?
    case EtlCrash => s.running.Some?
  }

  function Emitted(e: Emitter.State, event: Event): Emitter.State {
    if Emitter.Enabled(e, Emitter.EmitAccept(event)) then Emitter.Do(e, Emitter.EmitAccept(event))
    else Emitter.Do(e, Emitter.EmitReject(event))
  }

  function Do(s: State, step: Step): State
    requires Enabled(s, step)
  {
    match step
    case CommitRow(t) => s.(rows := s.rows + [t], unsent := s.unsent + [t])
    case EmitRow(i, json) =>
      s.(unsent := Without(s.unsent, i), emitter := Emitted(s.emitter, EventOf(s.unsent[i], json)))
    case Lose(i) => s.(unsent := Without(s.unsent, i))
    case Pipe(p) => s.(emitter := Emitter.Do(s.emitter, p))
    case Land(events) => s.(raw := s.raw + [seq(|events|, i requires 0 <= i < |events| => RawOf(events[i]))])
    case EtlWrite(kept, today) =>
      s.(curated := s.curated + CurateAll(kept, today), passes := s.passes + [Unread(s)], running := Some(|s.raw|))
    case EtlIdle => s.(bookmark := |s.raw|)
    case EtlCommit => s.(bookmark := s.running.value, running := None)
    case EtlCrash => s.(running := None, crashes := s.crashes + 1)
  }

  ghost predicate CanRun(s: State, steps: seq<Step>)
    decreases |steps|
  {
    steps == [] || (Enabled(s, steps[0]) && CanRun(Do(s, steps[0]), steps[1..]))
  }

  function Run(s: State, steps: seq<Step>): State
    requires CanRun(s, steps)
    decreases |steps|
  {
    if steps == [] then s else Run(Do(s, steps[0]), steps[1..])
  }

  // ----- Where every row of the lake comes from -----

  ghost predicate FromRow(e: Event, rows: seq<Txn>) {
    exists t :: t in rows && e == EventOf(t, e.json)
  }

  /** Ids are primary keys, and the handlers yet to emit hold committed rows. */
  ghost predicate RowsOk(s: State) {
    && (forall i, j :: 0 <= i < j < |s.rows| ==> s.rows[i].id != s.rows[j].id)
    && (forall t :: t in s.rows ==> IsCategory(t.category))
    && (forall t :: t in s.unsent ==> t in s.rows)
    && (forall i, j :: 0 <= i < j < |s.unsent| ==> s.unsent[i].id != s.unsent[j].id)
  }

  /** Each committed row enters the channel at most once. */
  ghost predicate AcceptedOk(s: State) { AcceptedFrom(s.emitter.accepted, s.rows, s.unsent) }

  ghost predicate AcceptedFrom(accepted: seq<Event>, rows: seq<Txn>, unsent: seq<Txn>) {
    && (forall e :: e in accepted ==> FromRow(e, rows))
    && DistinctEvents(accepted)
    && (forall e, t :: e in accepted && t in unsent ==> e.id != t.id)
  }

  ghost predicate RawOk(s: State) {
    forall r :: r in Flatten(s.raw) ==> RawFrom(r, s.emitter.accepted)
  }

  ghost predicate RawFrom(r: RawRow, accepted: seq<Event>) {
    exists e :: e in accepted && r == RawOf(e)
  }

  /** What a curated row says of a committed one. */
  predicate CuratedFrom(c: CuratedRow, t: Txn) {
    && c.id == t.id && c.amount == t.amount && c.category == t.category
    && c.at == Some(t.at) && c.date == Day(t.at)
    && c.severity == (if Deref(t.severity) == "" then "none" else Deref(t.severity))
    && c.aiProvider == (if Deref(t.provider) == "" then "none" else Deref(t.provider))
  }

  ghost predicate CuratedOk(s: State) {
    forall c :: c in s.curated ==> exists t :: t in s.rows && CuratedFrom(c, t)
  }

  ghost predicate Inv(s: State) {
    Emitter.Inv(s.emitter) && RowsOk(s) && AcceptedOk(s) && RawOk(s) && CuratedOk(s)
  }

  lemma {:induction false} EncodedWasThere(es: seq<Event>, r: Batching.Record)
    requires r in Batching.Encodable(es)
    ensures r.event in es
  {
    if Batching.Encode(es[0]).Some? && r == Batching.Encode(es[0]).value {
    } else {
      EncodedWasThere(es[1..], r);
    }
  }

  /** Whatever the service was handed had been accepted from a handler. */
  lemma HandedWasAccepted(e: Emitter.State, event: Event)
    requires Emitter.Inv(e) && Handed(e, event)
    ensures event in e.accepted
  {
    var taken := Flatten(e.sent) + e.pending + Emitter.Carried(e);
    assert taken == Batching.Encodable(e.taken);
    var r :| r in taken && r.event == event by {
      if i :| 0 <= i < |Flatten(e.sent)| && Flatten(e.sent)[i].event == event {
        assert taken[i] == Flatten(e.sent)[i];
      } else {
        var i :| 0 <= i < |e.pending| && e.pending[i].event == event;
        assert taken[|Flatten(e.sent)| + i] == e.pending[i];
      }
    }
    EncodedWasThere(e.taken, r);
  }

  lemma EmitterKeepsAccepted(e: Emitter.State, step: Emitter.Step)
    requires EmitterInternal(step) && Emitter.Enabled(e, step)
    ensures Emitter.Do(e, step).accepted == e.accepted
  {
  }

  lemma StepKeepsEmitter(s: State, step: Step)
    requires Emitter.Inv(s.emitter) && Enabled(s, step)
    ensures Emitter.Inv(Do(s, step).emitter)
  {
    if step.EmitRow? {
      var e := EventOf(s.unsent[step.i], step.json);
      Emitter.StepKeepsInv(s.emitter, if Emitter.Enabled(s.emitter, Emitter.EmitAccept(e)) then Emitter.EmitAccept(e)
                                      else Emitter.EmitReject(e));
    } else if step.Pipe? {
      Emitter.StepKeepsInv(s.emitter, step.step);
    }
  }

  lemma StepKeepsRows(s: State, step: Step)
    requires RowsOk(s) && Enabled(s, step)
    ensures RowsOk(Do(s, step))
  {
    if step.CommitRow? {
      forall u | u in s.unsent ensures u.id != step.t.id {
        var i :| 0 <= i < |s.rows| && s.rows[i] == u;
      }
    }
  }

  lemma CommitKeepsAccepted(s: State, t: Txn)
    requires AcceptedOk(s) && Enabled(s, CommitRow(t))
    ensures AcceptedOk(Do(s, CommitRow(t)))
  {
    forall e | e in s.emitter.accepted ensures e.id != t.id && FromRow(e, s.rows + [t]) {
      var u :| u in s.rows && e == EventOf(u, e.json);
      var i :| 0 <= i < |s.rows| && s.rows[i] == u;
      assert u in s.rows + [t];
    }
  }

  lemma WithoutKeeps<T>(xs: seq<T>, i: nat, x: T)
    requires i < |xs| && x in Without(xs, i)
    ensures exists j :: 0 <= j < |xs| && j != i && xs[j] == x
  {
    var k :| 0 <= k < |Without(xs, i)| && Without(xs, i)[k] == x;
    var j := if k < i then k else k + 1;
    assert xs[j] == x;
  }

  /** What is left to emit has other ids than the row just emitted. */
  lemma UnsentApart(s: State, i: nat, u: Txn)
    requires RowsOk(s) && i < |s.unsent| && u in Without(s.unsent, i)
    ensures u in s.unsent && u.id != s.unsent[i].id
  {
    WithoutKeeps(s.unsent, i, u);
  }

  lemma AcceptedMore(accepted: seq<Event>, rows: seq<Txn>, unsent: seq<Txn>, t: Txn, e: Event, left: seq<Txn>)
    requires AcceptedFrom(accepted, rows, unsent) && t in unsent && t in rows && e == EventOf(t, e.json)
    requires forall u :: u in left ==> u in unsent && u.id != t.id
    ensures AcceptedFrom(accepted + [e], rows, left) && AcceptedFrom(accepted, rows, left)
  {
    assert FromRow(e, rows);
    assert forall x :: x in accepted + [e] ==> x in accepted || x == e;
  }

  lemma EmitKeepsAccepted(s: State, i: nat, json: Option<nat>)
    requires RowsOk(s) && AcceptedOk(s) && Enabled(s, EmitRow(i, json))
    ensures AcceptedOk(Do(s, EmitRow(i, json)))
  {
    var t, e := s.unsent[i], EventOf(s.unsent[i], json);
    forall u | u in Without(s.unsent, i) ensures u in s.unsent && u.id != t.id {
      UnsentApart(s, i, u);
    }
    AcceptedMore(s.emitter.accepted, s.rows, s.unsent, t, e, Without(s.unsent, i));
  }

  lemma StepKeepsAccepted(s: State, step: Step)
    requires RowsOk(s) && AcceptedOk(s) && Enabled(s, step)
    ensures AcceptedOk(Do(s, step))
  {
    match step {
      case CommitRow(t) => CommitKeepsAccepted(s, t);
      case EmitRow(i, json) => EmitKeepsAccepted(s, i, json);
      case Pipe(p) => EmitterKeepsAccepted(s.emitter, p);
      case _ =>
    }
  }

  lemma AcceptedGrows(s: State, step: Step)
    requires Enabled(s, step)
    ensures s.emitter.accepted <= Do(s, step).emitter.accepted
  {
    if step.Pipe? {
      EmitterKeepsAccepted(s.emitter, step.step);
    }
  }

  lemma StepKeepsRaw(s: State, step: Step)
    requires Emitter.Inv(s.emitter) && RawOk(s) && Enabled(s, step)
    ensures RawOk(Do(s, step))
  {
    var t := Do(s, step);
    AcceptedGrows(s, step);
    if step.Land? {
      var obj := t.raw[|s.raw|];
      FlattenSnoc(s.raw, obj);
      forall r | r in obj ensures RawFrom(r, s.emitter.accepted) {
        var i :| 0 <= i < |obj| && obj[i] == r;
        HandedWasAccepted(s.emitter, step.events[i]);
      }
    } else {
      assert t.raw == s.raw;
      forall r | r in Flatten(s.raw) ensures RawFrom(r, t.emitter.accepted) {
        var e :| e in s.emitter.accepted && r == RawOf(e);
        assert e in t.emitter.accepted;
      }
    }
  }

  lemma UnreadIsRaw(s: State, r: RawRow)
    requires s.bookmark <= |s.raw| && r in Unread(s)
    ensures r in Flatten(s.raw)
  {
    FlattenAppend(s.raw[..s.bookmark], s.raw[s.bookmark..]);
    assert s.raw == s.raw[..s.bookmark] + s.raw[s.bookmark..];
  }

  lemma RawCurates(s: State, r: RawRow, today: int)
    requires AcceptedOk(s) && RawOk(s) && r in Flatten(s.raw)
    ensures exists t :: t in s.rows && CuratedFrom(Curate(r, today), t)
  {
    var e :| e in s.emitter.accepted && r == RawOf(e);
    var t :| t in s.rows && e == EventOf(t, e.json);
    assert CuratedFrom(Curate(r, today), t);
  }

  lemma StepKeepsCurated(s: State, step: Step)
    requires Inv(s) && Enabled(s, step)
    ensures CuratedOk(Do(s, step))
  {
    if step.EtlWrite? {
      var added := CurateAll(step.kept, step.today);
      forall c | c in added ensures exists t :: t in s.rows && CuratedFrom(c, t) {
        var i :| 0 <= i < |added| && added[i] == c;
        assert step.kept[i] in Unread(s);
        UnreadIsRaw(s, step.kept[i]);
        RawCurates(s, step.kept[i], step.today);
      }
    }
  }

  lemma {:induction false} RunKeepsInv(s: State, steps: seq<Step>)
    requires Inv(s) && CanRun(s, steps)
    ensures Inv(Run(s, steps))
    decreases |steps|
  {
    if steps != [] {
      StepKeepsEmitter(s, steps[0]);
      StepKeepsRows(s, steps[0]);
      StepKeepsAccepted(s, steps[0]);
      StepKeepsRaw(s, steps[0]);
      StepKeepsCurated(s, steps[0]);
      RunKeepsInv(Do(s, steps[0]), steps[1..]);
    }
  }

  lemma StartInv(capacity: nat)
    ensures Inv(Start(capacity))
  {
    Emitter.StartInv(capacity);
  }

  /** In every run, each curated row carries the id, amount, category, severity and provider
      of a committed row of the database, in a category the projection knows. */
  lemma CuratedRowsWereCommitted(capacity: nat, steps: seq<Step>, c: CuratedRow)
    requires CanRun(Start(capacity), steps) && c in Run(Start(capacity), steps).curated
    ensures exists t :: t in Run(Start(capacity), steps).rows && CuratedFrom(c, t)
    ensures IsCategory(c.category)
  {
    StartInv(capacity);
    RunKeepsInv(Start(capacity), steps);
  }

  ghost predicate DistinctEvents(es: seq<Event>) {
    forall i, j :: 0 <= i < j < |es| ==> es[i].id != es[j].id
  }

  ghost predicate DistinctRecords(rs: seq<Batching.Record>) {
    forall i, j :: 0 <= i < j < |rs| ==> rs[i].event.id != rs[j].event.id
  }

  lemma {:induction false} EncodedIdsDistinct(es: seq<Event>)
    requires DistinctEvents(es)
    ensures DistinctRecords(Batching.Encodable(es))
  {
    if es != [] {
      EncodedIdsDistinct(es[1..]);
      var tail := Batching.Encodable(es[1..]);
      forall j | 0 <= j < |tail| ensures tail[j].event.id != es[0].id {
        EncodedWasThere(es[1..], tail[j]);
        var k :| 0 <= k < |es[1..]| && es[1..][k] == tail[j].event;
        assert es[k + 1] == tail[j].event;
      }
    }
  }

  lemma SentIdsDistinct(e: Emitter.State)
    requires Emitter.Inv(e) && DistinctEvents(e.accepted)
    ensures DistinctRecords(Flatten(e.sent))
  {
    assert forall i :: 0 <= i < |e.taken| ==> e.accepted[i] == e.taken[i];
    EncodedIdsDistinct(e.taken);
    PrefixDistinct(Flatten(e.sent), e.pending, Emitter.Carried(e));
  }

  lemma PrefixDistinct(a: seq<Batching.Record>, b: seq<Batching.Record>, c: seq<Batching.Record>)
    requires DistinctRecords(a + b + c)
    ensures DistinctRecords(a)
  {
    assert forall i :: 0 <= i < |a| ==> (a + b + c)[i] == a[i];
  }

  /** The emitter never sends one transaction twice: ids repeat in the landing zone only
      because the service delivers at least once. */
  lemma NoTransactionSentTwice(capacity: nat, steps: seq<Step>)
    requires CanRun(Start(capacity), steps)
    ensures DistinctRecords(Flatten(Run(Start(capacity), steps).emitter.sent))
  {
    StartInv(capacity);
    RunKeepsInv(Start(capacity), steps);
    SentIdsDistinct(Run(Start(capacity), steps).emitter);
  }

  /** How many handlers died between their commit and their emit. */
  function Losses(steps: seq<Step>): nat {
    if steps == [] then 0 else (if steps[0].Lose? then 1 else 0) + Losses(steps[1..])
  }

  lemma StepMovesRows(s: State, step: Step)
    requires Enabled(s, step)
    ensures var t := Do(s, step);
            |t.rows| - |t.unsent| - t.emitter.emits
            == |s.rows| - |s.unsent| - s.emitter.emits + (if step.Lose? then 1 else 0)
  {
    if step.Pipe? {
      EmitterKeepsEmits(s.emitter, step.step);
    }
  }

  lemma EmitterKeepsEmits(e: Emitter.State, step: Emitter.Step)
    requires EmitterInternal(step) && Emitter.Enabled(e, step)
    ensures Emitter.Do(e, step).emits == e.emits
  {
  }

  lemma {:induction false} RunMovesRows(s: State, steps: seq<Step>)
    requires CanRun(s, steps)
    ensures var t := Run(s, steps);
            |t.rows| - |t.unsent| - t.emitter.emits == |s.rows| - |s.unsent| - s.emitter.emits + Losses(steps)
    decreases |steps|
  {
    if steps != [] {
      StepMovesRows(s, steps[0]);
      RunMovesRows(Do(s, steps[0]), steps[1..]);
    }
  }

  /** Every committed row is in exactly one place: with its handler, lost with it, or emitted
      and then dropped, on its way, delivered or failed. */
  lemma CommittedRowsAreConserved(capacity: nat, steps: seq<Step>)
    requires CanRun(Start(capacity), steps)
    ensures var s, e := Run(Start(capacity), steps), Run(Start(capacity), steps).emitter;
            |s.rows| == |s.unsent| + Losses(steps)
                        + e.dropped + e.rejecting + |e.queue| + |Emitter.InHand(e)| + |Emitter.Carried(e)|
                        + Emitter.Uncounted(e) + e.delivered + e.failed
  {
    StartInv(capacity);
    RunKeepsInv(Start(capacity), steps);
    RunMovesRows(Start(capacity), steps);
    Emitter.InvConserves(Run(Start(capacity), steps).emitter);
  }

  // ----- How often a transaction is written -----

  function Copies(cs: seq<CuratedRow>, id: int): nat {
    if cs == [] then 0 else Copies(cs[..|cs| - 1], id) + (if cs[|cs| - 1].id == id then 1 else 0)
  }

  function PassesReading(passes: seq<seq<RawRow>>, id: int): nat {
    if passes == [] then 0
    else PassesReading(passes[..|passes| - 1], id) + (if HasId(passes[|passes| - 1], id) then 1 else 0)
  }

  lemma {:induction false} CopiesAppend(a: seq<CuratedRow>, b: seq<CuratedRow>, id: int)
    ensures Copies(a + b, id) == Copies(a, id) + Copies(b, id)
    decreases |b|
  {
    if b == [] {
      assert a + b == a;
    } else {
      assert (a + b)[..|a + b| - 1] == a + b[..|b| - 1];
      CopiesAppend(a, b[..|b| - 1], id);
    }
  }

  lemma {:induction false} DistinctCopies(kept: seq<RawRow>, today: int, id: int)
    requires forall i, j :: 0 <= i < j < |kept| ==> kept[i].id != kept[j].id
    ensures Copies(CurateAll(kept, today), id) == if HasId(kept, id) then 1 else 0
  {
    if kept != [] {
      var n := |kept| - 1;
      DistinctCopies(kept[..n], today, id);
      assert CurateAll(kept, today)[..n] == CurateAll(kept[..n], today);
      HasIdLast(kept, id);
      assert kept[n].id == id ==> !HasId(kept[..n], id);
    }
  }

  lemma HasIdLast(rs: seq<RawRow>, id: int)
    requires rs != []
    ensures HasId(rs, id) <==> HasId(rs[..|rs| - 1], id) || rs[|rs| - 1].id == id
  {
    var init := rs[..|rs| - 1];
    if HasId(init, id) {
      var i :| 0 <= i < |init| && init[i].id == id;
      assert rs[i].id == id;
    }
    if HasId(rs, id) {
      var i :| 0 <= i < |rs| && rs[i].id == id;
      assert i < |init| ==> init[i].id == id;
    }
  }

  lemma HasIdWithin(a: seq<RawRow>, b: seq<RawRow>, id: int)
    requires forall r :: r in a ==> r in b
    ensures HasId(a, id) ==> HasId(b, id)
  {
    if HasId(a, id) {
      var i :| 0 <= i < |a| && a[i].id == id;
      assert a[i] in b;
    }
  }

  /** A pass writes one row for each id it read, and none for any other. */
  lemma PassWritesOneRowPerId(kept: seq<RawRow>, read: seq<RawRow>, today: int, id: int)
    requires IsDeduplicated(kept, read)
    ensures Copies(CurateAll(kept, today), id) == if HasId(read, id) then 1 else 0
  {
    DistinctCopies(kept, today, id);
    HasIdWithin(kept, read, id);
    if HasId(read, id) {
      var i :| 0 <= i < |read| && read[i].id == id;
      assert read[i] in read;
    }
  }

  lemma {:induction false} RunCountsCopies(s: State, steps: seq<Step>, id: int)
    requires CanRun(s, steps) && Copies(s.curated, id) == PassesReading(s.passes, id)
    ensures Copies(Run(s, steps).curated, id) == PassesReading(Run(s, steps).passes, id)
    decreases |steps|
  {
    if steps != [] {
      var t := Do(s, steps[0]);
      if steps[0].EtlWrite? {
        CopiesAppend(s.curated, CurateAll(steps[0].kept, steps[0].today), id);
        PassWritesOneRowPerId(steps[0].kept, Unread(s), steps[0].today, id);
        assert t.passes[..|s.passes|] == s.passes;
      }
      RunCountsCopies(t, steps[1..], id);
    }
  }

  /** Overall, a transaction has one curated row for each pass that read a copy of it. */
  lemma OneRowPerReadingPass(capacity: nat, steps: seq<Step>, id: int)
    requires CanRun(Start(capacity), steps)
    ensures Copies(Run(Start(capacity), steps).curated, id) == PassesReading(Run(Start(capacity), steps).passes, id)
  {
    RunCountsCopies(Start(capacity), steps, id);
  }

  /** How much of the landing zone the passes have read. */
  function ReadUpTo(s: State): nat { if s.running.Some? then s.running.value else s.bookmark }

  /** Without a crash, the passes read the landing zone once, in order; each crash leaves at
      least one row to be read again. */
  ghost predicate ReadOnce(s: State) {
    && s.bookmark <= ReadUpTo(s) <= |s.raw|
    && (s.crashes == 0 ==> Flatten(s.passes) == Flatten(s.raw[..ReadUpTo(s)]))
    && |Flatten(s.passes)| >= |Flatten(s.raw[..ReadUpTo(s)])| + s.crashes
    && (s.running.Some? ==> |Flatten(s.passes)| > |Flatten(s.raw[..s.bookmark])| + s.crashes)
  }

  lemma WriteKeepsReadOnce(s: State, step: Step)
    requires ReadOnce(s) && Enabled(s, step) && (step.EtlWrite? || step.EtlIdle?)
    ensures ReadOnce(Do(s, step))
  {
    FlattenSnoc(s.passes, Unread(s));
    FlattenAppend(s.raw[..s.bookmark], s.raw[s.bookmark..]);
    assert s.raw[..s.bookmark] + s.raw[s.bookmark..] == s.raw == s.raw[..|s.raw|];
  }

  lemma LandKeepsReadOnce(s: State, step: Step)
    requires ReadOnce(s) && Enabled(s, step) && step.Land?
    ensures ReadOnce(Do(s, step))
  {
    assert Do(s, step).raw[..ReadUpTo(s)] == s.raw[..ReadUpTo(s)];
    assert Do(s, step).raw[..s.bookmark] == s.raw[..s.bookmark];
  }

  lemma StepKeepsReadOnce(s: State, step: Step)
    requires ReadOnce(s) && Enabled(s, step)
    ensures ReadOnce(Do(s, step))
  {
    if step.EtlWrite? || step.EtlIdle? {
      WriteKeepsReadOnce(s, step);
    } else if step.Land? {
      LandKeepsReadOnce(s, step);
    }
  }

  lemma {:induction false} RunKeepsReadOnce(s: State, steps: seq<Step>)
    requires ReadOnce(s) && CanRun(s, steps)
    ensures ReadOnce(Run(s, steps))
    decreases |steps|
  {
    if steps != [] {
      StepKeepsReadOnce(s, steps[0]);
      RunKeepsReadOnce(Do(s, steps[0]), steps[1..]);
    }
  }

  /** In every run the passes consume the landing zone once, in order, if and only if no job
      fails between its write and its commit. */
  lemma BookmarkConsumesOnce(capacity: nat, steps: seq<Step>)
    requires CanRun(Start(capacity), steps)
    ensures var s := Run(Start(capacity), steps);
            && ReadUpTo(s) <= |s.raw|
            && (Flatten(s.passes) == Flatten(s.raw[..ReadUpTo(s)]) <==> s.crashes == 0)
  {
    RunKeepsReadOnce(Start(capacity), steps);
  }

  // ----- One curated row for each transaction -----

  /** How many of the rows are of one id. */
  function RawCopies(rs: seq<RawRow>, id: int): nat {
    if rs == [] then 0 else RawCopies(rs[..|rs| - 1], id) + (if rs[|rs| - 1].id == id then 1 else 0)
  }

  lemma {:induction false} RawCopiesAppend(a: seq<RawRow>, b: seq<RawRow>, id: int)
    ensures RawCopies(a + b, id) == RawCopies(a, id) + RawCopies(b, id)
    decreases |b|
  {
    if b == [] {
      assert a + b == a;
    } else {
      assert (a + b)[..|a + b| - 1] == a + b[..|b| - 1];
      RawCopiesAppend(a, b[..|b| - 1], id);
    }
  }

  lemma {:induction false} CopiedIffPresent(rs: seq<RawRow>, id: int)
    ensures HasId(rs, id) <==> RawCopies(rs, id) > 0
  {
    if rs != [] {
      CopiedIffPresent(rs[..|rs| - 1], id);
      HasIdLast(rs, id);
    }
  }

  lemma LastPass(passes: seq<seq<RawRow>>, id: int)
    requires passes != []
    ensures var n := |passes| - 1;
            RawCopies(Flatten(passes), id) == RawCopies(Flatten(passes[..n]), id) + RawCopies(passes[n], id)
  {
    var n := |passes| - 1;
    FlattenSnoc(passes[..n], passes[n]);
    assert passes == passes[..n] + [passes[n]];
    RawCopiesAppend(Flatten(passes[..n]), passes[n], id);
  }

  /** The passes that read an id are at most the copies they read, and none only if there
      were none. */
  lemma {:induction false} PassesReadCopies(passes: seq<seq<RawRow>>, id: int)
    ensures PassesReading(passes, id) <= RawCopies(Flatten(passes), id)
    ensures PassesReading(passes, id) > 0 <==> RawCopies(Flatten(passes), id) > 0
  {
    if passes != [] {
      var n := |passes| - 1;
      PassesReadCopies(passes[..n], id);
      LastPass(passes, id);
      CopiedIffPresent(passes[n], id);
    }
  }

  lemma {:induction false} OnePassWithAllCopies(passes: seq<seq<RawRow>>, k: nat, id: int)
    requires k < |passes|
    ensures RawCopies(passes[k], id) <= RawCopies(Flatten(passes), id)
    ensures ReadsAll(passes[k], Flatten(passes), id) ==> PassesReading(passes, id) == 1
  {
    var n := |passes| - 1;
    LastPass(passes, id);
    CopiedIffPresent(passes[n], id);
    if k == n {
      PassesReadCopies(passes[..n], id);
    } else {
      OnePassWithAllCopies(passes[..n], k, id);
    }
  }

  lemma {:induction false} OneReadingPass(passes: seq<seq<RawRow>>, id: int) returns (k: nat)
    requires PassesReading(passes, id) == 1
    ensures k < |passes| && ReadsAll(passes[k], Flatten(passes), id)
  {
    var n := |passes| - 1;
    LastPass(passes, id);
    CopiedIffPresent(passes[n], id);
    if HasId(passes[n], id) {
      PassesReadCopies(passes[..n], id);
      k := n;
    } else {
      k := OneReadingPass(passes[..n], id);
    }
  }

  /** Each pass that read an id is paid for by a raw copy of it, or by a crash. */
  ghost predicate CopiesPay(s: State, id: int) {
    && s.bookmark <= ReadUpTo(s) <= |s.raw|
    && PassesReading(s.passes, id) <= RawCopies(Flatten(s.raw[..ReadUpTo(s)]), id) + s.crashes
    && (s.running.Some? ==> PassesReading(s.passes, id) <= RawCopies(Flatten(s.raw[..s.bookmark]), id) + s.crashes + 1)
  }

  lemma WriteKeepsCopiesPay(s: State, step: Step, id: int)
    requires CopiesPay(s, id) && Enabled(s, step) && (step.EtlWrite? || step.EtlIdle?)
    ensures CopiesPay(Do(s, step), id)
  {
    FlattenAppend(s.raw[..s.bookmark], s.raw[s.bookmark..]);
    assert s.raw[..s.bookmark] + s.raw[s.bookmark..] == s.raw == s.raw[..|s.raw|];
    RawCopiesAppend(Flatten(s.raw[..s.bookmark]), Unread(s), id);
    CopiedIffPresent(Unread(s), id);
    assert (s.passes + [Unread(s)])[..|s.passes|] == s.passes;
  }

  lemma LandKeepsCopiesPay(s: State, step: Step, id: int)
    requires CopiesPay(s, id) && Enabled(s, step) && step.Land?
    ensures CopiesPay(Do(s, step), id)
  {
    assert Do(s, step).raw[..ReadUpTo(s)] == s.raw[..ReadUpTo(s)];
    assert Do(s, step).raw[..s.bookmark] == s.raw[..s.bookmark];
  }

  lemma {:induction false} RunKeepsCopiesPay(s: State, steps: seq<Step>, id: int)
    requires CopiesPay(s, id) && CanRun(s, steps)
    ensures CopiesPay(Run(s, steps), id)
    decreases |steps|
  {
    if steps != [] {
      if steps[0].EtlWrite? || steps[0].EtlIdle? {
        WriteKeepsCopiesPay(s, steps[0], id);
      } else if steps[0].Land? {
        LandKeepsCopiesPay(s, steps[0], id);
      }
      RunKeepsCopiesPay(Do(s, steps[0]), steps[1..], id);
    }
  }

  lemma ReadIsPartOfRaw(raw: seq<seq<RawRow>>, n: nat, id: int)
    requires n <= |raw|
    ensures RawCopies(Flatten(raw[..n]), id) <= RawCopies(Flatten(raw), id)
  {
    assert raw == raw[..n] + raw[n..];
    FlattenAppend(raw[..n], raw[n..]);
    RawCopiesAppend(Flatten(raw[..n]), Flatten(raw[n..]), id);
  }

  /** The pass read a copy of the transaction, and every one there is. */
  predicate ReadsAll(pass: seq<RawRow>, raw: seq<RawRow>, id: int) {
    RawCopies(pass, id) == RawCopies(raw, id) > 0
  }

  /** What the job is for, in every run. A transaction never has more curated rows than raw
      ones and crashes together, so at most one unless the service delivered it again or a
      job failed between its write and its commit; and it has exactly one if and only if a
      single pass read every copy of it that was ever read. */
  lemma OneCuratedRowPerTransaction(capacity: nat, steps: seq<Step>, id: int)
    requires CanRun(Start(capacity), steps)
    ensures var s := Run(Start(capacity), steps);
            && Copies(s.curated, id) <= RawCopies(Flatten(s.raw), id) + s.crashes
            && (Copies(s.curated, id) > 0 <==> HasId(Flatten(s.passes), id))
            && (Copies(s.curated, id) == 1
                <==> exists k :: 0 <= k < |s.passes| && ReadsAll(s.passes[k], Flatten(s.passes), id))
  {
    var s := Run(Start(capacity), steps);
    OneRowPerReadingPass(capacity, steps, id);
    RunKeepsCopiesPay(Start(capacity), steps, id);
    ReadIsPartOfRaw(s.raw, ReadUpTo(s), id);
    PassesReadCopies(s.passes, id);
    CopiedIffPresent(Flatten(s.passes), id);
    if Copies(s.curated, id) == 1 {
      var k := OneReadingPass(s.passes, id);
    }
    if k :| 0 <= k < |s.passes| && ReadsAll(s.passes[k], Flatten(s.passes), id) {
      OnePassWithAllCopies(s.passes, k, id);
    }
  }

  /** Without such a failure the landing zone alone decides: a transaction has a curated row
      exactly when it was read, and one, however often it was delivered, when a single pass
      read every copy. */
  lemma OneCuratedRowWithoutCrash(capacity: nat, steps: seq<Step>, id: int)
    requires CanRun(Start(capacity), steps) && Run(Start(capacity), steps).crashes == 0
    ensures var s := Run(Start(capacity), steps);
            && ReadUpTo(s) <= |s.raw|
            && (Copies(s.curated, id) > 0 <==> HasId(Flatten(s.raw[..ReadUpTo(s)]), id))
            && ((exists k :: 0 <= k < |s.passes| && ReadsAll(s.passes[k], Flatten(s.raw), id))
                ==> Copies(s.curated, id) == 1)
  {
    var s := Run(Start(capacity), steps);
    OneCuratedRowPerTransaction(capacity, steps, id);
    BookmarkConsumesOnce(capacity, steps);
    ReadIsPartOfRaw(s.raw, ReadUpTo(s), id);
    if k :| 0 <= k < |s.passes| && ReadsAll(s.passes[k], Flatten(s.raw), id) {
      OnePassWithAllCopies(s.passes, k, id);
    }
  }

  lemma {:induction false} RunSnoc(s: State, steps: seq<Step>, step: Step)
    requires CanRun(s, steps) && Enabled(Run(s, steps), step)
    ensures CanRun(s, steps + [step]) && Run(s, steps + [step]) == Do(Run(s, steps), step)
    decreases |steps|
  {
    if steps == [] {
      assert [] + [step] == [step] && [step][1..] == [];
    } else {
      RunSnoc(Do(s, steps[0]), steps[1..], step);
      assert (steps + [step])[1..] == steps[1..] + [step];
    }
  }

  /** The emitter takes one event, encodes it, and on a tick hands it to the service. */
  lemma EmitterHandsOver(e: Event, size: nat)
    requires Batching.Encode(e) == Some(Batching.Record(e, size))
    ensures var s1 := Emitted(Emitter.Start(1), e);
            && Emitter.Enabled(s1, Emitter.Receive)
            && var s2 := Emitter.Do(s1, Emitter.Receive);
            && Emitter.Enabled(s2, Emitter.Process)
            && var s3 := Emitter.Do(s2, Emitter.Process);
            && Emitter.Enabled(s3, Emitter.Tick)
            && Handed(Emitter.Do(s3, Emitter.Tick), e)
  {
    var s1 := Emitted(Emitter.Start(1), e);
    var s2 := Emitter.Do(s1, Emitter.Receive);
    assert s1.queue == [e] && s2.pc == Emitter.Hand(e, false);
    var s3 := Emitter.Do(s2, Emitter.Process);
    var s4 := Emitter.Do(s3, Emitter.Tick);
    assert s3.pending == [Batching.Record(e, size)];
    assert s4.pc.Sending? && s4.pending[0].event == e;
  }

  predicate Unused(s: State) { s.(rows := [], unsent := [], emitter := Emitter.Start(1)) == Start(1) }

  lemma PipeStep(steps: seq<Step>, p: Emitter.Step)
    requires CanRun(Start(1), steps) && Unused(Run(Start(1), steps)) && EmitterInternal(p)
    requires Emitter.Enabled(Run(Start(1), steps).emitter, p)
    ensures CanRun(Start(1), steps + [Pipe(p)])
    ensures var s := Run(Start(1), steps + [Pipe(p)]);
            Unused(s) && s.emitter == Emitter.Do(Run(Start(1), steps).emitter, p)
  {
    RunSnoc(Start(1), steps, Pipe(p));
  }

  lemma CommitAndEmit(t: Txn, json: Option<nat>)
    requires IsCategory(t.category)
    ensures CanRun(Start(1), [CommitRow(t)] + [EmitRow(0, json)])
    ensures var s := Run(Start(1), [CommitRow(t)] + [EmitRow(0, json)]);
            Unused(s) && s.emitter == Emitted(Emitter.Start(1), EventOf(t, json))
  {
    var start := Start(1);
    assert [] + [CommitRow(t)] == [CommitRow(t)];
    assert CanRun(start, []) && Run(start, []) == start;
    RunSnoc(start, [], CommitRow(t));
    var s := Do(start, CommitRow(t));
    assert s.unsent == [t];
    RunSnoc(start, [CommitRow(t)], EmitRow(0, json));
  }

  /** A run that hands one transaction to the service. */
  lemma HandOver(t: Txn, json: nat) returns (steps: seq<Step>)
    requires IsCategory(t.category) && json + 1 <= Batching.MAX_RECORD_BYTES
    ensures CanRun(Start(1), steps)
    ensures var s := Run(Start(1), steps); Unused(s) && Handed(s.emitter, EventOf(t, Some(json)))
  {
    var e := EventOf(t, Some(json));
    EmitterHandsOver(e, json + 1);
    CommitAndEmit(t, Some(json));
    steps := [CommitRow(t)] + [EmitRow(0, Some(json))];
    PipeStep(steps, Emitter.Receive);
    steps := steps + [Pipe(Emitter.Receive)];
    PipeStep(steps, Emitter.Process);
    steps := steps + [Pipe(Emitter.Process)];
    PipeStep(steps, Emitter.Tick);
    steps := steps + [Pipe(Emitter.Tick)];
  }

  /** A pass over one unread record. */
  function WriteOne(e: Event): Step { EtlWrite([RawOf(e)], 0) }

  /** The run is between passes, with the record of `e` unread and nothing else. */
  ghost predicate OneUnread(s: State, e: Event) {
    s.running.None? && s.bookmark <= |s.raw| && Unread(s) == [RawOf(e)]
  }

  lemma WriteOneEnabled(s: State, e: Event)
    requires OneUnread(s, e)
    ensures Enabled(s, WriteOne(e)) && Do(s, WriteOne(e)).curated == s.curated + [Curate(RawOf(e), 0)]
  {
    assert [RawOf(e)][0].id == e.id;
    assert CurateAll([RawOf(e)], 0) == [Curate(RawOf(e), 0)];
  }

  lemma LandOne(s: State, e: Event)
    requires Handed(s.emitter, e) && s.bookmark == |s.raw| && s.running.None?
    ensures Enabled(s, Land([e])) && OneUnread(Do(s, Land([e])), e)
    ensures Do(s, Land([e])).raw == s.raw + [[RawOf(e)]]
  {
    var t := Do(s, Land([e]));
    FlattenSnoc([], [RawOf(e)]);
    assert t.raw[|s.raw|] == [RawOf(e)];
    assert t.raw[t.bookmark..] == [] + [[RawOf(e)]];
  }

  /** The service delivers a record once more, and a pass reads it and commits. */
  lemma DeliverAndRead(steps0: seq<Step>, e: Event) returns (steps: seq<Step>)
    requires CanRun(Start(1), steps0)
    requires var s := Run(Start(1), steps0); Handed(s.emitter, e) && s.bookmark == |s.raw| && s.running.None?
    ensures CanRun(Start(1), steps)
    ensures var s0, s := Run(Start(1), steps0), Run(Start(1), steps);
            && s.emitter == s0.emitter && s.bookmark == |s.raw| && s.running.None? && s.crashes == s0.crashes
            && s.curated == s0.curated + [Curate(RawOf(e), 0)]
  {
    var s0 := Run(Start(1), steps0);
    LandOne(s0, e);
    RunSnoc(Start(1), steps0, Land([e]));
    var s1 := Do(s0, Land([e]));
    WriteOneEnabled(s1, e);
    RunSnoc(Start(1), steps0 + [Land([e])], WriteOne(e));
    RunSnoc(Start(1), steps0 + [Land([e])] + [WriteOne(e)], EtlCommit);
    steps := steps0 + [Land([e])] + [WriteOne(e)] + [EtlCommit];
  }

  lemma TwoRows(c: CuratedRow, id: int)
    requires c.id == id
    ensures Copies([] + [c] + [c], id) == 2
  {
    assert [] + [c] + [c] == [c, c] && [c, c][..1] == [c] && [c][..0] == [];
    assert Copies([c, c], id) == Copies([c], id) + 1;
  }

  /** Across passes duplicates remain: with every bookmark committed, a record that the
      service delivers again after a pass has two curated rows. */
  lemma RedeliveryIsWrittenTwice(t: Txn, json: nat) returns (steps: seq<Step>)
    requires IsCategory(t.category) && json + 1 <= Batching.MAX_RECORD_BYTES
    ensures CanRun(Start(1), steps)
    ensures Run(Start(1), steps).crashes == 0 && Copies(Run(Start(1), steps).curated, t.id) == 2
  {
    var e := EventOf(t, Some(json));
    var handed := HandOver(t, json);
    var once := DeliverAndRead(handed, e);
    steps := DeliverAndRead(once, e);
    TwoRows(Curate(RawOf(e), 0), t.id);
  }

  /** A pass that fails after its write leaves its record unread, and the next one writes it
      again. */
  lemma ReadTwice(s: State, e: Event)
    requires OneUnread(s, e)
    ensures Enabled(s, WriteOne(e)) && Enabled(Do(s, WriteOne(e)), EtlCrash)
    ensures var crashed := Do(Do(s, WriteOne(e)), EtlCrash);
            && Enabled(crashed, WriteOne(e))
            && var t := Do(crashed, WriteOne(e));
               t.raw == s.raw && t.crashes == s.crashes + 1
               && t.curated == s.curated + [Curate(RawOf(e), 0)] + [Curate(RawOf(e), 0)]
  {
    WriteOneEnabled(s, e);
    var crashed := Do(Do(s, WriteOne(e)), EtlCrash);
    assert OneUnread(crashed, e);
    WriteOneEnabled(crashed, e);
  }

  /** So does a failed commit: a record delivered once, read by a job that fails between its
      write and its commit and by the next one, has two curated rows. */
  lemma FailedCommitIsWrittenTwice(t: Txn, json: nat) returns (steps: seq<Step>)
    requires IsCategory(t.category) && json + 1 <= Batching.MAX_RECORD_BYTES
    ensures CanRun(Start(1), steps)
    ensures var s := Run(Start(1), steps);
            s.crashes == 1 && RawCopies(Flatten(s.raw), t.id) == 1 && Copies(s.curated, t.id) == 2
  {
    var e := EventOf(t, Some(json));
    var handed := HandOver(t, json);
    LandOne(Run(Start(1), handed), e);
    RunSnoc(Start(1), handed, Land([e]));
    var landed := handed + [Land([e])];
    ReadTwice(Run(Start(1), landed), e);
    RunSnoc(Start(1), landed, WriteOne(e));
    RunSnoc(Start(1), landed + [WriteOne(e)], EtlCrash);
    RunSnoc(Start(1), landed + [WriteOne(e)] + [EtlCrash], WriteOne(e));
    steps := landed + [WriteOne(e)] + [EtlCrash] + [WriteOne(e)];
    TwoRows(Curate(RawOf(e), 0), t.id);
    OneCopy([RawOf(e)], t.id);
  }

  lemma OneCopy(rs: seq<RawRow>, id: int)
    requires |rs| == 1 && rs[0].id == id
    ensures Flatten([] + [rs]) == rs && RawCopies(rs, id) == 1
  {
    FlattenSnoc([], rs);
    assert rs[..0] == [];
  }
}
