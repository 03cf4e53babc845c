/** The transaction write path: category resolution, enrichment, the insert, and the emit. */
module WritePath {
  import opened Common
  import opened Money
  import opened Ledger
  import opened GroupBy
  import opened Anomaly
  import opened Peers
  import Batching

  /** The closed set of categories. */
  const CATEGORIES: seq<string> := [
    "groceries", "dining", "transport", "housing", "utilities", "healthcare",
    "entertainment", "shopping", "income", "transfer", "fees", "other"]

  predicate IsCategory(s: string) { s in CATEGORIES }

  /** A model's category, mapped onto the closed set. */
  function ValidCategory(s: string): string { if IsCategory(s) then s else "other" }

  /** A model's severity, defaulting to none. */
  function ValidSeverity(s: string): string {
    if s == "low" || s == "medium" || s == "high" then s else "none"
  }

  /** The configured provider with what it would answer: the stub always suggests a category
      and scores arithmetically; a model may fail, and its answers are validated. */
  datatype Provider =
    | NoProvider
    | Stub(suggestion: string)
    | Model(category: Option<string>, severity: Option<string>)

  /** A create request, its category already trimmed and lower-cased. */
  datatype Request = Request(account: int, amount: real, category: string, at: int,
                             provider: Provider, baselineFails: bool)

  datatype Enrichment = Enrichment(category: string, severity: Option<string>, provider: Option<string>)

  /** The history query's answer. */
  function BaselineOf(items: seq<Item>): seq<Stat> {
    var keys := KeysOf(items);
    seq(|keys|, i requires 0 <= i < |keys| => LineOf(items, keys[i]))
  }

  function LineOf(items: seq<Item>, key: string): Stat {
    var n, total := CountOf(items, key), SumOf(items, key);
    Stat(key, n, total, if n == 0 then 0.0 else total / n as real, MaxOf(items, key))
  }

  lemma BaselineOfIsBaseline(items: seq<Item>)
    ensures IsBaseline(BaselineOf(items), items)
  {
    KeysAreGrouping(items);
    assert Keys(BaselineOf(items)) == KeysOf(items);
    forall i | 0 <= i < |BaselineOf(items)| ensures IsLine(BaselineOf(items)[i], items) {
      assert KeysOf(items)[i] in KeysOf(items);
    }
  }

  /** The category a provider suggests, or "" when it fails. */
  function Suggested(p: Provider): string {
    match p
    case NoProvider => ""
    case Stub(s) => ValidCategory(s)
    case Model(c, _) => if c.Some? then ValidCategory(c.value) else ""
  }

  /** The category the transaction is assessed under. */
  function AssessedCategory(req: Request): string {
    if req.category != "" then req.category else Suggested(req.provider)
  }

  /** The category the transaction is stored under. */
  function StoredCategory(req: Request): string {
    if AssessedCategory(req) != "" then AssessedCategory(req) else "other"
  }

  function Verdict(req: Request, items: seq<Item>): Option<string> {
    if req.baselineFails then None
    else
      match req.provider
      case NoProvider => None
      case Stub(_) => Some(SeverityName(Assess(req.amount, AssessedCategory(req), BaselineOf(items)).severity))
      case Model(_, s) => if s.Some? then Some(ValidSeverity(s.value)) else None
  }

  function ProviderName(p: Provider): string {
    if p.Stub? then "stub" else "bedrock"
  }

  /** The provider recorded with a row: named when it suggested a category or gave a verdict. */
  function RecordedProvider(req: Request, items: seq<Item>): Option<string> {
    if (req.category == "" && Suggested(req.provider) != "") || Verdict(req, items).Some?
    then Some(ProviderName(req.provider)) else None
  }

  /** The row a request is stored as, given its account's history. */
  function RowFor(req: Request, items: seq<Item>, id: nat): Txn {
    Txn(id, req.account, Round2(req.amount), StoredCategory(req), req.at,
        Verdict(req, items), RecordedProvider(req, items))
  }

  /** What a caller gets: the category asked for, else a listed suggestion, else "other". */
  predicate RightCategory(category: string, req: Request) {
    if req.category != "" then category == req.category
    else
      match req.provider
      case NoProvider => category == "other"
      case Stub(s) => category == if IsCategory(s) then s else "other"
      case Model(c, _) => category == if c.Some? && IsCategory(c.value) then c.value else "other"
  }

  /** Which verdict is recorded, if any, over the rows in the table. */
  ghost predicate RightVerdict(severity: Option<string>, req: Request, rows: seq<Txn>) {
    match req.provider
    case NoProvider => severity == None
    case Stub(_) =>
      if req.baselineFails then severity == None
      else severity.Some? && RightSeverity(severity.value, req.amount, rows, req.account, AssessedCategory(req))
    case Model(_, s) =>
      if req.baselineFails || s.None? then severity == None
      else severity == if s.value in ["low", "medium", "high"] then s else Some("none")
  }

  /** Which provider is recorded: only one that suggested a category or gave a verdict. */
  predicate RightProvider(provider: Option<string>, req: Request) {
    match req.provider
    case NoProvider => provider == None
    case Stub(_) => provider == if req.category == "" || !req.baselineFails then Some("stub") else None
    case Model(c, s) =>
      provider == if (req.category == "" && c.Some?) || (!req.baselineFails && s.Some?) then Some("bedrock") else None
  }

  lemma StoredIsRight(req: Request, rows: seq<Txn>)
    ensures var items := History(rows, req.account);
            && RightCategory(StoredCategory(req), req)
            && RightVerdict(Verdict(req, items), req, rows)
            && RightProvider(RecordedProvider(req, items), req)
  {
    var items := History(rows, req.account);
    CategoriesAreNamed();
    if req.provider.Stub? && !req.baselineFails {
      StubAlwaysResolves(req);
      BaselineOfIsBaseline(items);
      VerdictIsRight(req.amount, rows, req.account, AssessedCategory(req), BaselineOf(items));
    }
  }

  lemma CategoriesAreNamed()
    ensures !IsCategory("") && IsCategory("other")
  {
    assert forall i :: 0 <= i < |CATEGORIES| ==> |CATEGORIES[i]| > 0;
    assert CATEGORIES[11] == "other";
  }

  /** What reaches the database: DECIMAL(12,2) keeps cents and ten integer digits. */
  const AMOUNT_LIMIT: real := 10000000000.0

  /** The column can hold the amount once rounded. */
  predicate Storable(amount: real) { Abs(Round2(amount)) < AMOUNT_LIMIT }

  /** The column takes twelve digits, two of them after the point. */
  lemma StorableIsTwelveDigits(amount: real)
    ensures Storable(amount) <==> -1000000000000 < Round(amount * 100.0) < 1000000000000
  {
    assert Round2(amount) * 100.0 == Round(amount * 100.0) as real;
  }

  datatype Outcome = Created(row: Txn) | BadRequest | Failed

  /** The event of a committed row: no description and no account. */
  function EventOf(t: Txn, json: Option<nat>): Batching.Event {
    Batching.Event(t.id, t.at, t.amount, t.category, Deref(t.provider), Deref(t.severity), json)
  }

  function Deref(s: Option<string>): string { if s.Some? then s.value else "" }

  class TransactionHandler {
    var rows: seq<Txn>
    var nextId: nat
    var emitted: seq<Batching.Event>
    /** The length of an event's JSON rendering. */
    const jsonOf: Txn -> Option<nat>

    /** Ids are unique, categories stay in the closed set, amounts are whole cents, and the
        events emitted are the rows committed, in order. */
    ghost predicate Valid()
      reads this
    {
      && (forall i, j :: 0 <= i < j < |rows| ==> rows[i].id < rows[j].id)
      && (forall i :: 0 <= i < |rows| ==> RowOk(rows[i], nextId))
      && |emitted| == |rows|
      && (forall i :: 0 <= i < |rows| ==> emitted[i] == EventOf(rows[i], jsonOf(rows[i])))
    }

    constructor (jsonOf: Txn -> Option<nat>)
      ensures Valid() && rows == [] && emitted == []
    {
      rows, nextId, emitted := [], 1, [];
      this.jsonOf := jsonOf;
    }

    /** Resolves the category, then assesses against that category's history. */
    method Enrich(req: Request) returns (out: Enrichment)
      ensures out.category == if req.category == "" then Suggested(req.provider) else ""
      ensures out.severity == Verdict(req, History(rows, req.account))
      ensures out.provider == RecordedProvider(req, History(rows, req.account))
      ensures RightVerdict(out.severity, req, rows) && RightProvider(out.provider, req)
    {
      StoredIsRight(req, rows);
      out := Enrichment("", None, None);
      if req.provider.NoProvider? {
        return;
      }
      var category := req.category;
      if req.category == "" {
        var suggestion := Suggested(req.provider);
        if suggestion != "" {
          out := out.(category := suggestion);
          category := suggestion;
        }
      }
      if !req.baselineFails {
        var baseline := BaselineOf(History(rows, req.account));
        match req.provider {
          case Stub(_) =>
            var result := DetectAnomaly(req.amount, category, baseline);
            out := out.(severity := Some(SeverityName(result.severity)));
          case Model(_, s) =>
            if s.Some? {
              out := out.(severity := Some(ValidSeverity(s.value)));
            }
        }
      }
      if out.category != "" || out.severity.Some? {
        out := out.(provider := Some(ProviderName(req.provider)));
      }
    }

    /** Validates, enriches, inserts and, only once the row is committed, emits. */
    method Create(req: Request, insertFails: bool) returns (outcome: Outcome)
      requires Valid()
      modifies this
      ensures Valid()
      ensures outcome == BadRequest <==> req.category != "" && !IsCategory(req.category)
      ensures outcome == Failed <==>
                outcome != BadRequest && (insertFails || !Storable(req.amount))
      ensures !outcome.Created? ==> rows == old(rows) && emitted == old(emitted)
      ensures nextId == if outcome == BadRequest then old(nextId) else old(nextId) + 1
      ensures outcome.Created? ==>
                var t := outcome.row;
                && rows == old(rows) + [t] && emitted == old(emitted) + [EventOf(t, jsonOf(t))]
                && t.id == old(nextId) && t.account == req.account && t.at == req.at
                && t.amount == Round2(req.amount) && RightCategory(t.category, req)
                && RightVerdict(t.severity, req, old(rows)) && RightProvider(t.provider, req)
                && CanRun(State(old(rows), []), Alone(req, t.id))
                && rows == Run(State(old(rows), []), Alone(req, t.id)).rows
    {
      StoredIsRight(req, rows);
      var category := req.category;
      if category != "" && !IsCategory(category) {
        return BadRequest;
      }
      var enriched := Enrich(req);
      if category == "" {
        category := if enriched.category != "" then enriched.category else "other";
      }
      var amount := Round2(req.amount);
      Round2Facts(req.amount);
      assert IsCategory(category);
      var t := Txn(nextId, req.account, amount, category, req.at, enriched.severity, enriched.provider);
      var ok := InsertAndEmit(t, insertFails);
      if ok {
        AloneStores(old(rows), req, t.id);
      }
      outcome := if ok then Created(t) else Failed;
    }

    /** The insert takes the next id whether or not it succeeds, and the event follows only a
        row that was committed. */
    method InsertAndEmit(t: Txn, fails: bool) returns (ok: bool)
      requires Valid() && t.id == nextId && IsCategory(t.category) && WholeCents(t.amount)
      modifies this
      ensures Valid() && nextId == old(nextId) + 1
      ensures ok <==> !fails && Abs(t.amount) < AMOUNT_LIMIT
      ensures ok ==> rows == old(rows) + [t] && emitted == old(emitted) + [EventOf(t, jsonOf(t))]
      ensures !ok ==> rows == old(rows) && emitted == old(emitted)
    {
      nextId := nextId + 1;
      if fails || Abs(t.amount) >= AMOUNT_LIMIT {
        return false;
      }
      rows := rows + [t];
      emitted := emitted + [EventOf(t, jsonOf(t))];
      return true;
    }
  }

  predicate RowOk(t: Txn, nextId: nat) {
    t.id < nextId && IsCategory(t.category) && WholeCents(t.amount) && Abs(t.amount) < AMOUNT_LIMIT
  }

  // ----- Verdicts over interleaved requests -----

  /** A request that has been assessed against the history its account had then. */
  datatype Draft = Draft(req: Request, history: seq<Item>, inserted: bool)
  {
    function Severity(): Option<string> { Verdict(req, history) }

    /** How many rows of its category the baseline counted. */
    function Peers(): nat { CountOf(history, AssessedCategory(req)) }
  }

  datatype State = State(rows: seq<Txn>, drafts: seq<Draft>)

  /** Requests run side by side: any number may be assessed before any is inserted, and an
      assessed request may never be. */
  datatype Step = AssessStep(req: Request) | InsertStep(draft: nat, id: nat)

  predicate Enabled(s: State, step: Step) {
    match step
    case AssessStep(req) => req.category == "" || IsCategory(req.category)
    case InsertStep(d, _) => d < |s.drafts| && !s.drafts[d].inserted && Storable(s.drafts[d].req.amount)
  }

  function Do(s: State, step: Step): State
    requires Enabled(s, step)
  {
    match step
    case AssessStep(req) =>
      s.(drafts := s.drafts + [Draft(req, History(s.rows, req.account), false)])
    case InsertStep(d, id) =>
      var draft := s.drafts[d];
      State(s.rows + [RowFor(draft.req, draft.history, id)], s.drafts[d := draft.(inserted := true)])
  }

  ghost predicate CanRun(s: State, steps: seq<Step>)
    decreases |steps|
  {
    steps == [] || (Enabled(s, steps[0]) && CanRun(Do(s, steps[0]), steps[1..]))
  }

  function Run(s: State, steps: seq<Step>): State
    requires CanRun(s, steps)
    decreases |steps|
  {
    if steps == [] then s else Run(Do(s, steps[0]), steps[1..])
  }

  /** Only listed categories are stored, in every interleaving. */
  lemma {:induction false} OnlyListedAreStored(s: State, steps: seq<Step>)
    requires CanRun(s, steps) && AllListed(s)
    ensures AllListed(Run(s, steps))
    decreases |steps|
  {
    if steps != [] {
      if steps[0].AssessStep? {
        CategoriesAreNamed();
      }
      OnlyListedAreStored(Do(s, steps[0]), steps[1..]);
    }
  }

  ghost predicate AllListed(s: State) {
    && (forall i :: 0 <= i < |s.rows| ==> IsCategory(s.rows[i].category))
    && (forall d :: 0 <= d < |s.drafts| ==> IsCategory(StoredCategory(s.drafts[d].req)))
  }

  /** The history a request was assessed against is the account's in some earlier table. */
  ghost predicate HistoriesSeen(s: State) {
    forall d :: 0 <= d < |s.drafts| ==> SeenAt(s.drafts[d], s.rows)
  }

  ghost predicate SeenAt(d: Draft, rows: seq<Txn>) {
    exists n :: 0 <= n <= |rows| && d.history == History(rows[..n], d.req.account)
  }

  lemma SeenLater(d: Draft, rows: seq<Txn>, more: seq<Txn>)
    requires SeenAt(d, rows)
    ensures SeenAt(d, rows + more)
  {
    var n :| 0 <= n <= |rows| && d.history == History(rows[..n], d.req.account);
    assert (rows + more)[..n] == rows[..n];
  }

  lemma StepKeepsSeen(s: State, step: Step)
    requires HistoriesSeen(s) && Enabled(s, step)
    ensures HistoriesSeen(Do(s, step))
  {
    var t := Do(s, step);
    match step {
      case AssessStep(req) =>
        assert s.rows[..|s.rows|] == s.rows;
        assert SeenAt(t.drafts[|s.drafts|], t.rows);
      case InsertStep(i, id) =>
        forall d | 0 <= d < |t.drafts| ensures SeenAt(t.drafts[d], t.rows) {
          SeenLater(s.drafts[d], s.rows, [RowFor(s.drafts[i].req, s.drafts[i].history, id)]);
        }
    }
  }

  lemma {:induction false} RunKeepsSeen(s: State, steps: seq<Step>)
    requires HistoriesSeen(s) && CanRun(s, steps)
    ensures HistoriesSeen(Run(s, steps))
    decreases |steps|
  {
    if steps != [] {
      StepKeepsSeen(s, steps[0]);
      RunKeepsSeen(Do(s, steps[0]), steps[1..]);
    }
  }

  /** However requests interleave, each verdict is the right one for the table as it stood at
      some earlier moment. */
  lemma VerdictsAreRightForSomePrefix(steps: seq<Step>, d: nat)
    requires CanRun(EMPTY, steps) && d < |Run(EMPTY, steps).drafts|
    ensures var t := Run(EMPTY, steps);
            exists n :: 0 <= n <= |t.rows| && RightVerdict(t.drafts[d].Severity(), t.drafts[d].req, t.rows[..n])
  {
    RunKeepsSeen(EMPTY, steps);
    var t := Run(EMPTY, steps);
    assert SeenAt(t.drafts[d], t.rows);
    var n :| 0 <= n <= |t.rows| && t.drafts[d].history == History(t.rows[..n], t.drafts[d].req.account);
    StoredIsRight(t.drafts[d].req, t.rows[..n]);
  }

  predicate Concerns(req: Request, account: int, category: string) {
    req.account == account && StoredCategory(req) == category
  }

  /** The requests for the account that resolve to the category all ask for given amounts. */
  ghost predicate StepsWithin(steps: seq<Step>, account: int, category: string, amounts: iset<real>) {
    forall i :: 0 <= i < |steps| && steps[i].AssessStep? && Concerns(steps[i].req, account, category)
      ==> steps[i].req.amount in amounts
  }

  predicate Flagged(severity: Option<string>) { severity.Some? && severity.value != "none" }

  predicate DraftQuiet(d: Draft) {
    d.req.provider.Stub? && d.Peers() > 0 ==> !Flagged(d.Severity())
  }

  ghost predicate AllQuiet(drafts: seq<Draft>, account: int, category: string) {
    forall i :: 0 <= i < |drafts| && Concerns(drafts[i].req, account, category) ==> DraftQuiet(drafts[i])
  }

  const EMPTY: State := State([], [])

  /** In no interleaving of requests does the stub flag one that resolves to the category
      once the category has history. */
  ghost predicate NeverFlags(account: int, category: string, amounts: iset<real>) {
    forall steps :: CanRun(EMPTY, steps) && StepsWithin(steps, account, category, amounts)
      ==> AllQuiet(Run(EMPTY, steps).drafts, account, category)
  }

  /** No amount reaches past the bar that the stored form of another, or its own, sets. */
  ghost predicate WithinBars(amounts: iset<real>) {
    forall a, b :: a in amounts && b in amounts && Storable(b) ==> !Exceeds(Abs(a), Abs(Round2(b)), Bar(a))
  }

  ghost predicate StoredFrom(amount: real, amounts: iset<real>) {
    exists b :: b in amounts && Storable(b) && amount == Round2(b)
  }

  ghost predicate RowsWithin(rows: seq<Txn>, account: int, category: string, amounts: iset<real>) {
    forall i :: 0 <= i < |rows| && rows[i].account == account && rows[i].category == category
      ==> StoredFrom(rows[i].amount, amounts)
  }

  ghost predicate DraftsWithin(drafts: seq<Draft>, account: int, category: string, amounts: iset<real>) {
    forall i :: 0 <= i < |drafts| && Concerns(drafts[i].req, account, category) ==> drafts[i].req.amount in amounts
  }

  lemma {:induction false} HistoryWithin(rows: seq<Txn>, account: int, category: string, amounts: iset<real>, x: real)
    requires WithinBars(amounts) && RowsWithin(rows, account, category, amounts) && x in amounts
    ensures Covered(x, category, History(rows, account)) && Magnitudes(History(rows, account))
  {
    if rows != [] {
      HistoryWithin(rows[..|rows| - 1], account, category, amounts, x);
    }
  }

  lemma StubAlwaysResolves(req: Request)
    requires req.provider.Stub?
    ensures AssessedCategory(req) == StoredCategory(req) != ""
  {
    assert forall i :: 0 <= i < |CATEGORIES| ==> |CATEGORIES[i]| > 0;
  }

  lemma VerdictIsRaw(req: Request, items: seq<Item>)
    requires req.provider.Stub? && !req.baselineFails && Magnitudes(items)
    ensures Verdict(req, items) == Some(SeverityName(ScoreRaw(req.amount, AssessedCategory(req), items)))
    ensures Flagged(Verdict(req, items)) <==> ScoreRaw(req.amount, AssessedCategory(req), items) != SeverityNone
  {
    BaselineOfIsBaseline(items);
    SummaryLosesNothing(req.amount, AssessedCategory(req), BaselineOf(items), items);
    var severity := ScoreRaw(req.amount, AssessedCategory(req), items);
    assert SeverityName(severity)[0] == 'n' <==> severity == SeverityNone;
  }

  lemma AssessIsQuiet(s: State, req: Request, category: string, amounts: iset<real>)
    requires WithinBars(amounts) && RowsWithin(s.rows, req.account, category, amounts)
    requires req.amount in amounts && StoredCategory(req) == category && req.provider.Stub?
    requires CountOf(History(s.rows, req.account), AssessedCategory(req)) > 0
    ensures !Flagged(Verdict(req, History(s.rows, req.account)))
  {
    var items := History(s.rows, req.account);
    StubAlwaysResolves(req);
    HistoryWithin(s.rows, req.account, category, amounts, req.amount);
    if !req.baselineFails {
      VerdictIsRaw(req, items);
      OrdinaryIsNotFlagged(req.amount, category, items);
    }
  }

  /** While every amount stays below the bars of the others, no run flags any of them. */
  lemma {:induction false} BarsKeepQuiet(s: State, steps: seq<Step>, account: int, category: string,
                                         amounts: iset<real>)
    requires WithinBars(amounts) && CanRun(s, steps) && StepsWithin(steps, account, category, amounts)
    requires RowsWithin(s.rows, account, category, amounts) && DraftsWithin(s.drafts, account, category, amounts)
    requires AllQuiet(s.drafts, account, category)
    ensures AllQuiet(Run(s, steps).drafts, account, category)
    decreases |steps|
  {
    if steps != [] {
      match steps[0] {
        case AssessStep(req) =>
          if Concerns(req, account, category) && req.provider.Stub?
             && CountOf(History(s.rows, account), AssessedCategory(req)) > 0 {
            AssessIsQuiet(s, req, category, amounts);
          }
        case InsertStep(d, _) =>
          assert Concerns(s.drafts[d].req, account, category) ==> StoredFrom(Round2(s.drafts[d].req.amount), amounts);
      }
      BarsKeepQuiet(Do(s, steps[0]), steps[1..], account, category, amounts);
    }
  }

  /** The amount scored is the one submitted and the history is rounded: after one row of
      amount `b`, an amount of the same category goes unflagged exactly when it stays within
      the bar that the rounded `b` sets. */
  lemma OneRowVerdict(b: real, x: real, category: string)
    requires category != ""
    ensures ScoreRaw(x, category, [Item(category, Abs(Round2(b)))]) == SeverityNone
       <==> !Exceeds(Abs(x), Abs(Round2(b)), Bar(x))
  {
    var v := Abs(Round2(b));
    var items := [Item(category, v)];
    assert items[..0] == [];
    assert CountOf(items, category) == CountOf(items[..0], category) + 1 == 1;
    assert SumOf(items, category) == SumOf(items[..0], category) + v == v;
    assert MaxOf(items, category) == Larger(MaxOf(items[..0], category), v) == v;
    assert Mean(Scale(1, v, v)) == v;
  }

  function Ask(account: int, amount: real, category: string): Request {
    Request(account, amount, category, 0, Stub("other"), false)
  }

  /** One request assessed and inserted, then another assessed. */
  function Pair(account: int, category: string, b: real, a: real): seq<Step> {
    [AssessStep(Ask(account, b, category)), InsertStep(0, 1), AssessStep(Ask(account, a, category))]
  }

  /** One request with nobody else in between. */
  function Alone(req: Request, id: nat): seq<Step> { [AssessStep(req), InsertStep(0, id)] }

  lemma AloneStores(rows: seq<Txn>, req: Request, id: nat)
    requires (req.category == "" || IsCategory(req.category)) && Storable(req.amount)
    ensures CanRun(State(rows, []), Alone(req, id))
    ensures Run(State(rows, []), Alone(req, id)).rows == rows + [RowFor(req, History(rows, req.account), id)]
  {
    var s, steps := State(rows, []), Alone(req, id);
    var t := Do(s, steps[0]);
    var u := Do(t, steps[1]);
    assert CanRun(u, []) && Run(u, []) == u;
    assert steps[1..][0] == steps[1] && steps[1..][1..] == [];
    assert CanRun(t, steps[1..]) && Run(t, steps[1..]) == u;
  }

  lemma ThreeSteps(s: State, a: Step, b: Step, c: Step)
    requires Enabled(s, a) && Enabled(Do(s, a), b) && Enabled(Do(Do(s, a), b), c)
    ensures CanRun(s, [a, b, c]) && Run(s, [a, b, c]) == Do(Do(Do(s, a), b), c)
  {
    var t, u, v := Do(s, a), Do(Do(s, a), b), Do(Do(Do(s, a), b), c);
    assert CanRun(v, []) && Run(v, []) == v;
    assert [c][0] == c && [c][1..] == [];
    assert CanRun(u, [c]) && Run(u, [c]) == v;
    assert [b, c][0] == b && [b, c][1..] == [c];
    assert CanRun(t, [b, c]) && Run(t, [b, c]) == v;
    assert [a, b, c][0] == a && [a, b, c][1..] == [b, c];
  }

  /** The second request finds the first one's row, and only that. */
  lemma SecondVerdict(account: int, category: string, b: real, a: real)
    requires IsCategory(category)
    ensures var items, second := [Item(category, Abs(Round2(b)))], Ask(account, a, category);
            && CountOf(items, AssessedCategory(second)) == 1
            && (Flagged(Verdict(second, items)) <==> Exceeds(Abs(a), Abs(Round2(b)), Bar(a)))
  {
    var items, second := [Item(category, Abs(Round2(b)))], Ask(account, a, category);
    StubAlwaysResolves(second);
    assert items[..0] == [];
    VerdictIsRaw(second, items);
    OneRowVerdict(b, a, category);
  }

  lemma PairRuns(account: int, category: string, b: real, a: real)
    requires IsCategory(category) && Storable(b)
    ensures CanRun(EMPTY, Pair(account, category, b, a))
    ensures var drafts := Run(EMPTY, Pair(account, category, b, a)).drafts;
            && |drafts| == 2 && drafts[1].req == Ask(account, a, category) && drafts[1].Peers() == 1
            && (Flagged(drafts[1].Severity()) <==> Exceeds(Abs(a), Abs(Round2(b)), Bar(a)))
  {
    var steps := Pair(account, category, b, a);
    StubAlwaysResolves(Ask(account, b, category));
    var s1 := Do(EMPTY, steps[0]);
    var s2 := Do(s1, steps[1]);
    ThreeSteps(EMPTY, steps[0], steps[1], steps[2]);
    OneRowHistory(s2.rows[0]);
    assert s2.rows == [s2.rows[0]];
    SecondVerdict(account, category, b, a);
  }

  lemma OneRowHistory(t: Txn)
    ensures History([t], t.account) == [Item(t.category, Abs(t.amount))]
  {
    assert [t][..0] == [];
    assert History([t][..0], t.account) == [];
  }

  lemma BarsSuffice(account: int, category: string, amounts: iset<real>)
    requires WithinBars(amounts)
    ensures NeverFlags(account, category, amounts)
  {
    forall steps | CanRun(EMPTY, steps) && StepsWithin(steps, account, category, amounts)
      ensures AllQuiet(Run(EMPTY, steps).drafts, account, category)
    {
      BarsKeepQuiet(EMPTY, steps, account, category, amounts);
    }
  }

  /** Past the bar, the run that stores one amount flags the other. */
  lemma PairFlags(account: int, category: string, amounts: iset<real>, b: real, a: real)
    requires IsCategory(category) && a in amounts && b in amounts && Storable(b)
    requires Exceeds(Abs(a), Abs(Round2(b)), Bar(a))
    ensures var steps := Pair(account, category, b, a);
            && CanRun(EMPTY, steps) && StepsWithin(steps, account, category, amounts)
            && !AllQuiet(Run(EMPTY, steps).drafts, account, category)
  {
    PairRuns(account, category, b, a);
    StubAlwaysResolves(Ask(account, a, category));
    var drafts := Run(EMPTY, Pair(account, category, b, a)).drafts;
    assert Concerns(drafts[1].req, account, category) && !DraftQuiet(drafts[1]);
  }

  /** The exact condition: the requests of an account that resolve to one category and ask
      for the given amounts are never flagged, in any interleaving, if and only if each
      outflow is at most twice, and each inflow at most ten times, every amount as stored. */
  lemma NeverFlaggedIff(account: int, category: string, amounts: iset<real>)
    requires IsCategory(category)
    ensures NeverFlags(account, category, amounts) <==> WithinBars(amounts)
  {
    if WithinBars(amounts) {
      BarsSuffice(account, category, amounts);
    } else {
      var a, b :| a in amounts && b in amounts && Storable(b) && Exceeds(Abs(a), Abs(Round2(b)), Bar(a));
      PairFlags(account, category, amounts, b, a);
    }
  }

  /** Amounts that stay within a factor of two of each other. */
  ghost predicate FactorOfTwo(amounts: iset<real>) {
    forall a, b :: a in amounts && b in amounts ==> Abs(a) <= 2.0 * Abs(b)
  }

  ghost predicate AllWholeCents(amounts: iset<real>) { forall a :: a in amounts ==> WholeCents(a) }

  /** In particular whole-cent amounts within a factor of two of each other are never flagged. */
  lemma OrdinarySpendingIsNeverFlagged(account: int, category: string, amounts: iset<real>)
    requires IsCategory(category) && AllWholeCents(amounts) && FactorOfTwo(amounts)
    ensures NeverFlags(account, category, amounts)
  {
    forall a, b | a in amounts && b in amounts ensures !Exceeds(Abs(a), Abs(Round2(b)), Bar(a)) {
      Round2Facts(b);
    }
    NeverFlaggedIff(account, category, amounts);
  }

  /** Not so below the cent: these two are within a factor of two of each other, and the run
      that stores the first flags the second. */
  lemma SubCentAmountsCanBeFlagged(account: int, category: string)
    requires IsCategory(category)
    ensures var amounts, steps := iset{-0.0149, -0.029}, Pair(account, category, -0.0149, -0.029);
            && FactorOfTwo(amounts) && CanRun(EMPTY, steps) && StepsWithin(steps, account, category, amounts)
            && !AllQuiet(Run(EMPTY, steps).drafts, account, category)
  {
    assert Round2(-0.0149) == -0.01;
    PairFlags(account, category, iset{-0.0149, -0.029}, -0.0149, -0.029);
  }
}
