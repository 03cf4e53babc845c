/** The migration runner: one run over a faulty connection, and any number of concurrent
    runs sharing the schema_migrations table. */
module Migrate {
  import opened Common

  /** The versions of `files` that `table` lacks, in file order. */
  function Missing(files: seq<string>, table: seq<string>): seq<string> {
    if files == [] then []
    else if files[0] in table then Missing(files[1..], table)
    else [files[0]] + Missing(files[1..], table)
  }

  lemma {:induction false} MissingMembers(files: seq<string>, table: seq<string>, v: string)
    ensures v in Missing(files, table) <==> v in files && v !in table
  {
    if files != [] {
      MissingMembers(files[1..], table, v);
    }
  }

  lemma {:induction false} MissingAppend(a: seq<string>, b: seq<string>, table: seq<string>)
    ensures Missing(a + b, table) == Missing(a, table) + Missing(b, table)
  {
    if a == [] {
      assert a + b == b;
    } else {
      assert (a + b)[0] == a[0] && (a + b)[1..] == a[1..] + b;
      MissingAppend(a[1..], b, table);
    }
  }

  lemma {:induction false} MissingDistinct(files: seq<string>, table: seq<string>)
    requires Distinct(files)
    ensures Distinct(Missing(files, table))
  {
    if files != [] {
      MissingDistinct(files[1..], table);
      MissingMembers(files[1..], table, files[0]);
    }
  }

  // ----- Concurrent runs -----

  /** Where a run stands with its current file. `ToInsert` has executed the body in its
      transaction and `ToCommit` has inserted the version as well. */
  datatype Pc = Checking | ToBegin | ToExec | ToInsert | ToCommit | Returned(ok: bool)

  datatype Runner = Runner(next: nat, pc: Pc)

  /** The shared database: committed versions and committed migration bodies, in commit
      order, and every run that was ever started against it. */
  datatype State = State(table: seq<string>, effects: seq<string>, runners: seq<Runner>)

  /** `Fail(r)` is any error or crash, which rolls an open transaction back; `CommitLost` is
      a commit that took effect although the run only saw an error. */
  datatype Step =
    | Launch | Check(r: nat) | Begin(r: nat) | Exec(r: nat) | Insert(r: nat)
    | Commit(r: nat) | CommitLost(r: nat) | Fail(r: nat)

  predicate At(s: State, r: nat, pc: Pc) { r < |s.runners| && s.runners[r].pc == pc }

  /** Another open transaction holds an uncommitted insert of the same version. */
  predicate Locked(s: State, r: nat)
    requires r < |s.runners|
  {
    exists q: nat :: q < |s.runners| && q != r && s.runners[q].pc == ToCommit && s.runners[q].next == s.runners[r].next
  }

  predicate Enabled(files: seq<string>, s: State, step: Step) {
    match step
    case Launch => true
    case Check(r) => At(s, r, Checking)
    case Begin(r) => At(s, r, ToBegin)
    case Exec(r) => At(s, r, ToExec)
    case Insert(r) => At(s, r, ToInsert) && !Locked(s, r)
    case Commit(r) => At(s, r, ToCommit) && s.runners[r].next < |files|
    case CommitLost(r) => At(s, r, ToCommit) && s.runners[r].next < |files|
    case Fail(r) => r < |s.runners| && !s.runners[r].pc.Returned?
  }

  function Move(s: State, r: nat, next: nat, pc: Pc): State
    requires r < |s.runners|
  {
    s.(runners := s.runners[r := Runner(next, pc)])
  }

  function Committed(s: State, v: string): State {
    s.(table := s.table + [v], effects := s.effects + [v])
  }

  function Do(files: seq<string>, s: State, step: Step): State
    requires Enabled(files, s, step)
  {
    if step.Launch? then s.(runners := s.runners + [Runner(0, Checking)])
    else
      var i := s.runners[step.r].next;
      match step
      case Check(r) =>
        if i >= |files| then Move(s, r, i, Returned(true))
        else if files[i] in s.table then Move(s, r, i + 1, Checking)
        else Move(s, r, i, ToBegin)
      case Begin(r) => Move(s, r, i, ToExec)
      case Exec(r) => Move(s, r, i, ToInsert)
      case Insert(r) =>
        // The primary key refuses a version that has been committed meanwhile.
        if i >= |files| || files[i] in s.table then Move(s, r, i, Returned(false)) else Move(s, r, i, ToCommit)
      case Commit(r) => Move(Committed(s, files[i]), r, i + 1, Checking)
      case CommitLost(r) => Move(Committed(s, files[i]), r, i, Returned(false))
      case Fail(r) => Move(s, r, i, Returned(false))
  }

  ghost predicate CanRun(files: seq<string>, s: State, steps: seq<Step>)
    decreases |steps|
  {
    steps == [] || (Enabled(files, s, steps[0]) && CanRun(files, Do(files, s, steps[0]), steps[1..]))
  }

  function Run(files: seq<string>, s: State, steps: seq<Step>): State
    requires CanRun(files, s, steps)
    decreases |steps|
  {
    if steps == [] then s else Run(files, Do(files, s, steps[0]), steps[1..])
  }

  /** Every file before a run's current one is committed, and a version waiting to be
      committed is new. */
  predicate RunnerOk(files: seq<string>, table: seq<string>, r: Runner) {
    && r.next <= |files|
    && (forall j :: 0 <= j < r.next ==> files[j] in table)
    && (r.pc == ToCommit ==> r.next < |files| && files[r.next] !in table)
    && (r.pc == Returned(true) ==> r.next == |files|)
  }

  predicate RunnersOk(files: seq<string>, table: seq<string>, runners: seq<Runner>) {
    forall r :: 0 <= r < |runners| ==> RunnerOk(files, table, runners[r])
  }

  /** No version waits in two transactions. */
  predicate Exclusive(runners: seq<Runner>) {
    forall q, r :: 0 <= q < r < |runners| && runners[q].pc == ToCommit && runners[r].pc == ToCommit
      ==> runners[q].next != runners[r].next
  }

  /** The table is what it was, followed by a prefix of what was missing from it. */
  predicate Progress(files: seq<string>, table0: seq<string>, table: seq<string>) {
    && |table0| <= |table| <= |table0| + |Missing(files, table0)|
    && table == table0 + Missing(files, table0)[..|table| - |table0|]
  }

  predicate Inv(files: seq<string>, table0: seq<string>, s: State) {
    && Progress(files, table0, s.table)
    && s.effects == Missing(files, table0)[..|s.table| - |table0|]
    && RunnersOk(files, s.table, s.runners)
    && Exclusive(s.runners)
  }

  lemma MissingAround(files: seq<string>, table0: seq<string>, i: nat)
    requires i < |files| && files[i] !in table0
    ensures Missing(files, table0)
         == Missing(files[..i], table0) + ([files[i]] + Missing(files[i + 1..], table0))
  {
    assert files == files[..i] + ([files[i]] + files[i + 1..]);
    MissingAppend(files[..i], [files[i]] + files[i + 1..], table0);
    assert ([files[i]] + files[i + 1..])[1..] == files[i + 1..];
  }

  /** The next commit is the first missing version: everything before it is in the table. */
  lemma NextCommit(files: seq<string>, table0: seq<string>, table: seq<string>, i: nat)
    requires Distinct(files) && Progress(files, table0, table) && i < |files|
    requires files[i] !in table && forall j :: 0 <= j < i ==> files[j] in table
    ensures |table| < |table0| + |Missing(files, table0)|
    ensures Missing(files, table0)[|table| - |table0|] == files[i]
  {
    var missing, k := Missing(files, table0), |table| - |table0|;
    var early := Missing(files[..i], table0);
    MissingAround(files, table0, i);
    MissingDistinct(files, table0);
    assert missing[|early|] == files[i];
    assert k <= |early| by {
      forall n | |early| < n <= |missing| ensures files[i] in missing[..n] {
        assert missing[..n][|early|] == files[i];
      }
    }
    assert k >= |early| by {
      forall n | 0 <= n < |early| ensures missing[n] in files[..i] && missing[n] !in table0 {
        MissingMembers(files[..i], table0, early[n]);
        assert missing[n] == early[n];
      }
      assert forall v :: v in files[..i] ==> v in table;
      assert forall n :: 0 <= n < |missing| ==> missing[n] !in missing[..n];
    }
  }

  lemma CommitKeepsProgress(files: seq<string>, table0: seq<string>, s: State, i: nat)
    requires Distinct(files) && Inv(files, table0, s) && i < |files|
    requires files[i] !in s.table && forall j :: 0 <= j < i ==> files[j] in s.table
    ensures Progress(files, table0, s.table + [files[i]])
    ensures s.effects + [files[i]] == Missing(files, table0)[..|s.table| + 1 - |table0|]
  {
    NextCommit(files, table0, s.table, i);
    var missing, k := Missing(files, table0), |s.table| - |table0|;
    assert missing[..k + 1] == missing[..k] + [missing[k]];
  }

  lemma CommitKeepsRunners(files: seq<string>, s: State, r: nat)
    requires Distinct(files) && RunnersOk(files, s.table, s.runners) && Exclusive(s.runners) && At(s, r, ToCommit)
    ensures var i := s.runners[r].next;
            forall q :: 0 <= q < |s.runners| && q != r ==> RunnerOk(files, s.table + [files[i]], s.runners[q])
  {
  }

  lemma QuietStepKeepsRunners(files: seq<string>, s: State, step: Step)
    requires RunnersOk(files, s.table, s.runners) && Enabled(files, s, step) && !step.Commit? && !step.CommitLost?
    ensures RunnersOk(files, s.table, Do(files, s, step).runners)
  {
    if !step.Launch? {
      assert RunnerOk(files, s.table, s.runners[step.r]);
      assert RunnerOk(files, s.table, Do(files, s, step).runners[step.r]);
    }
  }

  lemma QuietStepKeepsInv(files: seq<string>, table0: seq<string>, s: State, step: Step)
    requires Inv(files, table0, s) && Enabled(files, s, step) && !step.Commit? && !step.CommitLost?
    ensures Inv(files, table0, Do(files, s, step))
  {
    QuietStepKeepsRunners(files, s, step);
    assert Do(files, s, step).table == s.table && Do(files, s, step).effects == s.effects;
  }

  lemma StepKeepsInv(files: seq<string>, table0: seq<string>, s: State, step: Step)
    requires Distinct(files) && Inv(files, table0, s) && Enabled(files, s, step)
    ensures Inv(files, table0, Do(files, s, step))
  {
    if step.Commit? || step.CommitLost? {
      CommitKeepsProgress(files, table0, s, s.runners[step.r].next);
      CommitKeepsRunners(files, s, step.r);
    } else {
      QuietStepKeepsInv(files, table0, s, step);
    }
  }

  lemma {:induction false} RunKeepsInv(files: seq<string>, table0: seq<string>, s: State, steps: seq<Step>)
    requires Distinct(files) && Inv(files, table0, s) && CanRun(files, s, steps)
    ensures Inv(files, table0, Run(files, s, steps))
    decreases |steps|
  {
    if steps != [] {
      StepKeepsInv(files, table0, s, steps[0]);
      RunKeepsInv(files, table0, Do(files, s, steps[0]), steps[1..]);
    }
  }

  /** However many runs are launched, interleaved and crashed, the versions committed are a
      prefix of the missing files in file order, each with its body's effect exactly once. */
  lemma CommittedInOrderOnce(files: seq<string>, table0: seq<string>, steps: seq<Step>)
    requires Distinct(files) && CanRun(files, State(table0, [], []), steps)
    ensures var s := Run(files, State(table0, [], []), steps);
            && Progress(files, table0, s.table)
            && s.table == table0 + s.effects
            && Distinct(s.effects) && (forall v :: v in s.effects ==> v !in table0)
  {
    var s := Run(files, State(table0, [], []), steps);
    assert Missing(files, table0)[..0] == [];
    RunKeepsInv(files, table0, State(table0, [], []), steps);
    MissingDistinct(files, table0);
    forall v | v in s.effects ensures v !in table0 {
      MissingMembers(files, table0, v);
    }
  }

  lemma {:induction false} MissingFromNone(files: seq<string>)
    ensures Missing(files, []) == files
  {
    if files != [] {
      MissingFromNone(files[1..]);
    }
  }

  /** From a new database the table is a prefix of the sorted file list. */
  lemma TableIsPrefixOfFiles(files: seq<string>, steps: seq<Step>)
    requires Distinct(files) && CanRun(files, State([], [], []), steps)
    ensures Run(files, State([], [], []), steps).table <= files
  {
    CommittedInOrderOnce(files, [], steps);
    MissingFromNone(files);
  }

  /** A run that returns no error leaves every file applied, whatever the others did. */
  lemma CleanReturnAppliesAll(files: seq<string>, table0: seq<string>, steps: seq<Step>, r: nat)
    requires Distinct(files) && CanRun(files, State(table0, [], []), steps)
    requires At(Run(files, State(table0, [], []), steps), r, Returned(true))
    ensures var s := Run(files, State(table0, [], []), steps);
            && (forall v :: v in files ==> v in s.table)
            && s.table == table0 + Missing(files, table0)
  {
    var s := Run(files, State(table0, [], []), steps);
    assert Missing(files, table0)[..0] == [];
    RunKeepsInv(files, table0, State(table0, [], []), steps);
    assert RunnerOk(files, s.table, s.runners[r]);
    var missing, k := Missing(files, table0), |s.table| - |table0|;
    MissingDistinct(files, table0);
    assert forall n :: 0 <= n < |missing| ==> missing[n] !in missing[..n];
    if k < |missing| {
      MissingMembers(files, table0, missing[k]);
    }
    assert missing[..|missing|] == missing;
  }

  lemma RunOne(files: seq<string>, s: State, step: Step, rest: seq<Step>)
    requires Enabled(files, s, step) && CanRun(files, Do(files, s, step), rest)
    ensures CanRun(files, s, [step] + rest)
    ensures Run(files, s, [step] + rest) == Run(files, Do(files, s, step), rest)
  {
    assert ([step] + rest)[0] == step && ([step] + rest)[1..] == rest;
  }

  /** An error does not mean that nothing was applied: when the answer to a commit is lost, the
      run returns an error and its version is in the table. */
  lemma ErrorMayHideCommit(v: string) returns (steps: seq<Step>)
    ensures CanRun([v], State([], [], []), steps)
    ensures var s := Run([v], State([], [], []), steps); At(s, 0, Returned(false)) && s.table == [v] == s.effects
  {
    var s0 := State([], [], []);
    var s1 := Do([v], s0, Launch);
    var s2 := Do([v], s1, Check(0));
    var s3 := Do([v], s2, Begin(0));
    var s4 := Do([v], s3, Exec(0));
    var s5 := Do([v], s4, Insert(0));
    var s6 := Do([v], s5, CommitLost(0));
    steps := [CommitLost(0)] + [];
    RunOne([v], s5, CommitLost(0), []);
    RunOne([v], s4, Insert(0), steps);
    steps := [Insert(0)] + steps;
    RunOne([v], s3, Exec(0), steps);
    steps := [Exec(0)] + steps;
    RunOne([v], s2, Begin(0), steps);
    steps := [Begin(0)] + steps;
    RunOne([v], s1, Check(0), steps);
    steps := [Check(0)] + steps;
    RunOne([v], s0, Launch, steps);
    steps := [Launch] + steps;
  }

  // ----- Runs that only lose races -----

  /** No statement fails on its own account; an insert may still find its version taken. */
  predicate Sound(steps: seq<Step>) {
    forall i :: 0 <= i < |steps| ==> !steps[i].Fail? && !steps[i].CommitLost?
  }

  /** The run has not lost, nor is it about to: the version it is at is still missing. */
  predicate InTheRace(files: seq<string>, table: seq<string>, r: Runner) {
    && r.pc != Returned(false)
    && (r.pc != Checking && r.pc != Returned(true) ==> r.next < |files| && files[r.next] !in table)
  }

  ghost predicate SomeoneLeads(files: seq<string>, s: State) {
    s.runners == [] || exists r :: 0 <= r < |s.runners| && InTheRace(files, s.table, s.runners[r])
  }

  /** Whoever commits leads; nobody else's step takes the lead away. */
  lemma StepKeepsLead(files: seq<string>, s: State, step: Step)
    requires SomeoneLeads(files, s) && Enabled(files, s, step) && !step.Fail? && !step.CommitLost?
    ensures SomeoneLeads(files, Do(files, s, step))
  {
    var t := Do(files, s, step);
    if step.Launch? {
      assert InTheRace(files, t.table, t.runners[|s.runners|]);
    } else if step.Commit? {
      assert InTheRace(files, t.table, t.runners[step.r]);
    } else {
      var r :| 0 <= r < |s.runners| && InTheRace(files, s.table, s.runners[r]);
      assert InTheRace(files, t.table, t.runners[r]);
    }
  }

  lemma {:induction false} RunKeepsLead(files: seq<string>, s: State, steps: seq<Step>)
    requires SomeoneLeads(files, s) && CanRun(files, s, steps) && Sound(steps)
    ensures SomeoneLeads(files, Run(files, s, steps))
    decreases |steps|
  {
    if steps != [] {
      assert !steps[0].Fail? && !steps[0].CommitLost?;
      StepKeepsLead(files, s, steps[0]);
      RunKeepsLead(files, Do(files, s, steps[0]), steps[1..]);
    }
  }

  predicate AllReturned(s: State) {
    forall r :: 0 <= r < |s.runners| ==> s.runners[r].pc.Returned?
  }

  /** However many tasks boot at once, when all have returned and nothing but the race for a
      version failed, one of them returned no error and every file is applied. */
  lemma SomeBootSucceeds(files: seq<string>, table0: seq<string>, steps: seq<Step>) returns (r: nat)
    requires Distinct(files) && CanRun(files, State(table0, [], []), steps) && Sound(steps)
    requires var s := Run(files, State(table0, [], []), steps); s.runners != [] && AllReturned(s)
    ensures var s := Run(files, State(table0, [], []), steps);
            At(s, r, Returned(true)) && s.table == table0 + Missing(files, table0)
  {
    RunKeepsLead(files, State(table0, [], []), steps);
    var s := Run(files, State(table0, [], []), steps);
    r :| r < |s.runners| && InTheRace(files, s.table, s.runners[r]);
    CleanReturnAppliesAll(files, table0, steps, r);
  }

  /** The steps left to a run, at most. */
  function Left(files: seq<string>, r: Runner): nat {
    var toGo := if r.next <= |files| then |files| - r.next else 0;
    match r.pc
    case Checking => 5 * toGo + 5
    case ToBegin => 5 * toGo + 4
    case ToExec => 5 * toGo + 3
    case ToInsert => 5 * toGo + 2
    case ToCommit => 5 * toGo + 1
    case Returned(_) => 0
  }

  function LeftOver(files: seq<string>, runners: seq<Runner>): nat {
    if runners == [] then 0
    else LeftOver(files, runners[..|runners| - 1]) + Left(files, runners[|runners| - 1])
  }

  lemma {:induction false} LeftUpdated(files: seq<string>, runners: seq<Runner>, r: nat, after: Runner)
    requires r < |runners|
    ensures LeftOver(files, runners[r := after]) + Left(files, runners[r])
         == LeftOver(files, runners) + Left(files, after)
  {
    var n := |runners| - 1;
    if r == n {
      assert runners[r := after][..n] == runners[..n];
    } else {
      LeftUpdated(files, runners[..n], r, after);
      assert runners[r := after][..n] == runners[..n][r := after];
    }
  }

  lemma StepUsesUp(files: seq<string>, s: State, step: Step)
    requires Enabled(files, s, step) && !step.Launch? && RunnersOk(files, s.table, s.runners)
    ensures LeftOver(files, Do(files, s, step).runners) < LeftOver(files, s.runners)
  {
    var after := Do(files, s, step).runners[step.r];
    assert RunnerOk(files, s.table, s.runners[step.r]);
    LeftUpdated(files, s.runners, step.r, after);
    assert Left(files, after) < Left(files, s.runners[step.r]);
  }

  predicate Works(step: Step) { !step.Launch? && !step.Fail? && !step.CommitLost? }

  /** Until all have returned some run can take a step that is not a failure: one that waits
      for another's insert waits for a run that can commit. */
  lemma BootNeverSticks(files: seq<string>, table0: seq<string>, steps: seq<Step>)
    requires Distinct(files) && CanRun(files, State(table0, [], []), steps)
    requires !AllReturned(Run(files, State(table0, [], []), steps))
    ensures exists step :: Enabled(files, Run(files, State(table0, [], []), steps), step) && Works(step)
  {
    var s := Run(files, State(table0, [], []), steps);
    assert Missing(files, table0)[..0] == [];
    RunKeepsInv(files, table0, State(table0, [], []), steps);
    var r :| 0 <= r < |s.runners| && !s.runners[r].pc.Returned?;
    var step := Moves(files, s, r);
  }

  function Launches(steps: seq<Step>): nat {
    if steps == [] then 0 else (if steps[0].Launch? then 1 else 0) + Launches(steps[1..])
  }

  /** What a launch adds to the steps left. */
  function Allowance(files: seq<string>, launches: nat): nat { launches * (5 * |files| + 5) }

  lemma LaunchAdds(files: seq<string>, s: State, launches: nat)
    ensures LeftOver(files, Do(files, s, Launch).runners) == LeftOver(files, s.runners) + (5 * |files| + 5)
    ensures Allowance(files, launches + 1) == Allowance(files, launches) + (5 * |files| + 5)
  {
    assert (s.runners + [Runner(0, Checking)])[..|s.runners|] == s.runners;
  }

  lemma {:induction false} StepsAreBounded(files: seq<string>, table0: seq<string>, s: State, steps: seq<Step>)
    requires Distinct(files) && Inv(files, table0, s) && CanRun(files, s, steps)
    ensures |steps| - Launches(steps) + LeftOver(files, Run(files, s, steps).runners)
         <= LeftOver(files, s.runners) + Allowance(files, Launches(steps))
    decreases |steps|
  {
    if steps != [] {
      StepKeepsInv(files, table0, s, steps[0]);
      StepsAreBounded(files, table0, Do(files, s, steps[0]), steps[1..]);
      if steps[0].Launch? {
        LaunchAdds(files, s, Launches(steps[1..]));
      } else {
        StepUsesUp(files, s, steps[0]);
      }
    }
  }

  /** However they are interleaved, runs take at most five steps a file and five more each. */
  lemma BootsEnd(files: seq<string>, table0: seq<string>, steps: seq<Step>)
    requires Distinct(files) && CanRun(files, State(table0, [], []), steps)
    ensures |steps| - Launches(steps) <= Launches(steps) * (5 * |files| + 5)
  {
    assert Missing(files, table0)[..0] == [];
    StepsAreBounded(files, table0, State(table0, [], []), steps);
  }

  lemma Moves(files: seq<string>, s: State, r: nat) returns (step: Step)
    requires RunnersOk(files, s.table, s.runners) && r < |s.runners| && !s.runners[r].pc.Returned?
    ensures Enabled(files, s, step) && Works(step)
  {
    if s.runners[r].pc == ToInsert && Locked(s, r) {
      var q: nat :| q < |s.runners| && s.runners[q].pc == ToCommit;
      assert RunnerOk(files, s.table, s.runners[q]);
      step := Commit(q);
    } else {
      assert RunnerOk(files, s.table, s.runners[r]);
      step := match s.runners[r].pc
        case Checking => Check(r)
        case ToBegin => Begin(r)
        case ToExec => Exec(r)
        case ToInsert => Insert(r)
        case _ => Commit(r);
    }
  }

  // ----- Losing the race -----

  /** The run has found its version missing and has not committed it yet. */
  predicate InFlight(s: State, r: nat, i: nat) {
    && r < |s.runners| && s.runners[r].next == i
    && (s.runners[r].pc == ToBegin || s.runners[r].pc == ToExec
        || s.runners[r].pc == ToInsert || s.runners[r].pc == ToCommit)
  }

  /** The run is in flight, with its insert still to come, for a version now committed; or it
      has returned an error for that version. */
  predicate Lost(files: seq<string>, s: State, r: nat, i: nat) {
    && r < |s.runners| && s.runners[r].next == i
    && (s.runners[r].pc == Returned(false)
        || (i < |files| && files[i] in s.table && InFlight(s, r, i) && s.runners[r].pc != ToCommit))
  }

  predicate CommitsBy(step: Step, r: nat) { step == Commit(r) || step == CommitLost(r) }

  lemma StepKeepsLost(files: seq<string>, s: State, step: Step, r: nat, i: nat)
    requires Lost(files, s, r, i) && Enabled(files, s, step)
    ensures Lost(files, Do(files, s, step), r, i) && !CommitsBy(step, r)
  {
  }

  /** A run that is late for its version stays at it, never commits, and can end only with an
      error, from any state and however the others go on. */
  lemma {:induction false} LateRunReturnsError(files: seq<string>, s: State, steps: seq<Step>, r: nat, i: nat)
    requires Lost(files, s, r, i) && CanRun(files, s, steps)
    ensures Lost(files, Run(files, s, steps), r, i)
    ensures Run(files, s, steps).runners[r].pc.Returned? ==> Run(files, s, steps).runners[r].pc == Returned(false)
    ensures forall k :: 0 <= k < |steps| ==> !CommitsBy(steps[k], r)
    decreases |steps|
  {
    if steps != [] {
      StepKeepsLost(files, s, steps[0], r, i);
      LateRunReturnsError(files, Do(files, s, steps[0]), steps[1..], r, i);
      assert forall k :: 1 <= k < |steps| ==> steps[k] == steps[1..][k - 1];
    }
  }

  /** Two runs at the same version, of which at least one has yet to insert it. */
  predicate Contend(s: State, q: nat, r: nat, i: nat) {
    && q != r && InFlight(s, q, i) && InFlight(s, r, i)
    && !(s.runners[q].pc == ToCommit && s.runners[r].pc == ToCommit)
  }

  predicate OneLoses(files: seq<string>, s: State, q: nat, r: nat, i: nat) {
    Contend(s, q, r, i) || Lost(files, s, q, i) || Lost(files, s, r, i)
  }

  lemma StepKeepsRivals(files: seq<string>, s: State, step: Step, q: nat, r: nat, i: nat)
    requires OneLoses(files, s, q, r, i) && Enabled(files, s, step)
    ensures OneLoses(files, Do(files, s, step), q, r, i)
  {
    if Lost(files, s, q, i) {
      StepKeepsLost(files, s, step, q, i);
    } else if Lost(files, s, r, i) {
      StepKeepsLost(files, s, step, r, i);
    } else if step.Insert? && (step.r == q || step.r == r) {
      InsertKeepsRivals(files, s, step.r, if step.r == q then r else q, i);
    }
  }

  lemma InsertKeepsRivals(files: seq<string>, s: State, q: nat, r: nat, i: nat)
    requires Contend(s, q, r, i) && Enabled(files, s, Insert(q))
    ensures var t := Do(files, s, Insert(q)); Contend(t, q, r, i) || Lost(files, t, q, i)
  {
  }

  lemma {:induction false} RunKeepsRivals(files: seq<string>, s: State, steps: seq<Step>, q: nat, r: nat, i: nat)
    requires OneLoses(files, s, q, r, i) && CanRun(files, s, steps)
    ensures OneLoses(files, Run(files, s, steps), q, r, i)
    decreases |steps|
  {
    if steps != [] {
      StepKeepsRivals(files, s, steps[0], q, r, i);
      RunKeepsRivals(files, Do(files, s, steps[0]), steps[1..], q, r, i);
    }
  }

  /** Of two runs that found the same version missing at most one returns no error. */
  lemma AtMostOneRivalSucceeds(files: seq<string>, s: State, steps: seq<Step>, q: nat, r: nat, i: nat)
    requires Contend(s, q, r, i) && CanRun(files, s, steps)
    ensures !(At(Run(files, s, steps), q, Returned(true)) && At(Run(files, s, steps), r, Returned(true)))
  {
    RunKeepsRivals(files, s, steps, q, r, i);
  }

  // ----- One run -----

  datatype Statement = CreateTable | CheckVersion | ReadFile | BeginTx | ExecBody | InsertVersion | CommitTx

  /** What a transaction sees of the database and has written to it. */
  datatype Transaction = Transaction(table: seq<string>, effects: seq<string>)

  /** The database as one connection sees it. */
  class Database {
    var table: seq<string>
    var effects: seq<string>

    constructor ()
      ensures table == [] && effects == []
    {
      table, effects := [], [];
    }
  }

  /** No statement a run executes for `v` fails. */
  predicate Clean(v: string, applied: bool, fails: (string, Statement) -> bool) {
    && !fails(v, CheckVersion)
    && (applied || !(fails(v, ReadFile) || fails(v, BeginTx) || fails(v, ExecBody)
                     || fails(v, InsertVersion) || fails(v, CommitTx)))
  }

  /** One run of the loop over the sorted files. `fails` says which statement fails for which
      version; the error names the version and the statement. A failed transaction leaves
      neither its body's effect nor its version. */
  method ApplyAll(db: Database, files: seq<string>, fails: (string, Statement) -> bool)
    returns (error: Option<(string, Statement)>)
    requires Distinct(files)
    modifies db
    ensures error == None ==> db.table == old(db.table) + Missing(files, old(db.table))
    ensures error == None ==> !fails("", CreateTable)
                              && forall v :: v in files ==> Clean(v, v in old(db.table), fails)
    ensures error.Some? ==> fails(error.value.0, error.value.1)
    ensures error.Some? && error.value.1 == CreateTable ==> db.table == old(db.table)
    ensures error.Some? && error.value.1 != CreateTable ==>
              exists i :: 0 <= i < |files| && files[i] == error.value.0
                          && db.table == old(db.table) + Missing(files[..i], old(db.table))
    ensures db.table[..|old(db.table)|] == old(db.table)
    ensures db.effects == old(db.effects) + db.table[|old(db.table)|..]
  {
    if fails("", CreateTable) {
      return Some(("", CreateTable));
    }
    ghost var before := db.table;
    for i := 0 to |files|
      invariant db.table == before + Missing(files[..i], before)
      invariant forall v :: v in files[..i] ==> Clean(v, v in before, fails)
      invariant db.effects == old(db.effects) + Missing(files[..i], before)
    {
      var version := files[i];
      assert files[..i + 1] == files[..i] + [version];
      MissingAppend(files[..i], [version], before);
      MissingMembers(files[..i], before, version);
      assert [version][1..] == [];
      if fails(version, CheckVersion) {
        return Some((version, CheckVersion));
      }
      if version in db.table {
        continue;
      }
      if fails(version, ReadFile) {
        return Some((version, ReadFile));
      }
      if fails(version, BeginTx) {
        return Some((version, BeginTx));
      }
      var tx := Transaction(db.table, db.effects);
      if fails(version, ExecBody) {
        return Some((version, ExecBody));
      }
      tx := tx.(effects := tx.effects + [version]);
      if fails(version, InsertVersion) {
        return Some((version, InsertVersion));
      }
      tx := tx.(table := tx.table + [version]);
      if fails(version, CommitTx) {
        return Some((version, CommitTx));
      }
      db.table, db.effects := tx.table, tx.effects;
    }
    assert files[..|files|] == files;
    return None;
  }
}
