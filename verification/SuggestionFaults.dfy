/** Runs in which whole-row saving breaks what owners expect, and how bad it can get: no
    run executes a suggestion, or stamps a reminder on it, more than twice. */
module SuggestionFaults {
  import opened Common
  import opened Suggestions
  import opened SuggestionRuns
  import opened SuggestionResults

  // ── The failing runs ────────────────────────────────────────────────────

  /** A scan creates suggestion 1 and its background preparation starts. */
  function Preparation(tenant: string): seq<Step> {
    [Scan(tenant, Some(ContentGap), 1, true, 0, 0), StartPrep(1)]
  }

  function Copy(tenant: string): Row { NewRow(tenant, ContentGap, 0) }

  function Prepared(tenant: string): State {
    State(map[1 := Entry(Copy(tenant), NO_HISTORY.(keys := {KeyOf(Copy(tenant))}))], {Preparing(1, Copy(tenant))}, 0)
  }

  lemma FirstScan(tenant: string)
    ensures Apply(WholeRow, EMPTY, Scan(tenant, Some(ContentGap), 1, true, 0, 0)) ==
            State(map[1 := Entry(Copy(tenant), NO_HISTORY)], {PrepQueued(1)}, 0)
  {
    assert ExpireAll(EMPTY, tenant, 0).table == map[];
  }

  lemma {:induction false} RunAppend(mode: Merge, s: State, a: seq<Step>, b: seq<Step>)
    ensures Run(mode, s, a + b) == Run(mode, Run(mode, s, a), b)
    ensures TimelyRun(mode, s, a + b) <==> TimelyRun(mode, s, a) && TimelyRun(mode, Run(mode, s, a), b)
    decreases |a|
  {
    if a == [] {
      assert a + b == b;
    } else {
      assert (a + b)[1..] == a[1..] + b;
      RunAppend(mode, Apply(mode, s, a[0]), a[1..], b);
    }
  }

  lemma RunOne(mode: Merge, s: State, step: Step)
    ensures Run(mode, s, [step]) == Apply(mode, s, step)
    ensures TimelyRun(mode, s, [step]) <==> Timely(s, step)
  {
    assert [step][1..] == [];
  }

  lemma RunTwo(mode: Merge, s: State, x: Step, y: Step)
    ensures Run(mode, s, [x, y]) == Apply(mode, Apply(mode, s, x), y)
    ensures TimelyRun(mode, s, [x, y]) <==> Timely(s, x) && Timely(Apply(mode, s, x), y)
  {
    assert [x, y][1..] == [y];
    RunOne(mode, Apply(mode, s, x), y);
  }

  lemma PreparationRuns(tenant: string)
    ensures Run(WholeRow, EMPTY, Preparation(tenant)) == Prepared(tenant)
    ensures TimelyRun(WholeRow, EMPTY, Preparation(tenant))
  {
    var scan := Scan(tenant, Some(ContentGap), 1, true, 0, 0);
    FirstScan(tenant);
    var a := Apply(WholeRow, EMPTY, scan);
    var b := Apply(WholeRow, a, StartPrep(1));
    assert b.tasks == {Preparing(1, Copy(tenant))} && b.table[1] == Prepared(tenant).table[1];
    assert b == Prepared(tenant);
    RunTwo(WholeRow, EMPTY, scan, StartPrep(1));
  }

  /** A run of two or three steps after the preparation. */
  lemma AfterPreparation(tenant: string, x: Step, y: Step, rest: seq<Step>)
    requires |rest| <= 1
    ensures var s := Apply(WholeRow, Apply(WholeRow, Prepared(tenant), x), y);
            Run(WholeRow, EMPTY, Preparation(tenant) + [x, y] + rest) ==
            if rest == [] then s else Apply(WholeRow, s, rest[0])
    ensures Timely(Prepared(tenant), x) && Timely(Apply(WholeRow, Prepared(tenant), x), y)
            && (rest != [] ==> Timely(Apply(WholeRow, Apply(WholeRow, Prepared(tenant), x), y), rest[0]))
            ==> TimelyRun(WholeRow, EMPTY, Preparation(tenant) + [x, y] + rest)
  {
    PreparationRuns(tenant);
    RunTwo(WholeRow, Prepared(tenant), x, y);
    RunAppend(WholeRow, EMPTY, Preparation(tenant), [x, y]);
    RunAppend(WholeRow, EMPTY, Preparation(tenant) + [x, y], rest);
    if rest != [] {
      assert rest == [rest[0]];
      RunOne(WholeRow, Run(WholeRow, EMPTY, Preparation(tenant) + [x, y]), rest[0]);
    }
  }

  function Returns(tenant: string, run: string, at: int, torn: bool): Step {
    FinishPrep(Preparing(1, Copy(tenant)), Some(run), at, torn)
  }

  /** The owner dismisses while the dispatch runs; it returns, and the dismissed
      suggestion is recorded as sent, its dismissal stamp gone. */
  lemma DismissedIsOverwritten(tenant: string, owner: string, run: string)
    ensures var steps := Preparation(tenant) + [Dismiss(1, owner, 5), Returns(tenant, run, 9, false)] + [];
            var t := Run(WholeRow, EMPTY, steps);
            && TimelyRun(WholeRow, EMPTY, steps) && 1 in t.table
            && t.table[1].row.status == Sent && t.table[1].row.snapshot.dismissed == None
  {
    AfterPreparation(tenant, Dismiss(1, owner, 5), Returns(tenant, run, 9, false), []);
  }

  /** The same with a crash after the first write: the dismissed suggestion is pending. */
  lemma DismissedIsReopened(tenant: string, owner: string, run: string)
    ensures var steps := Preparation(tenant) + [Dismiss(1, owner, 5), Returns(tenant, run, 9, true)] + [];
            var t := Run(WholeRow, EMPTY, steps);
            TimelyRun(WholeRow, EMPTY, steps) && 1 in t.table && t.table[1].row.status == Pending
  {
    AfterPreparation(tenant, Dismiss(1, owner, 5), Returns(tenant, run, 9, true), []);
  }

  /** The owner sends, the preparation's first write reopens the row, the owner sends
      again: two executions. */
  lemma ExecutedTwice(tenant: string, owner: string, run: string)
    ensures var send := Send(1, owner, None, 5, Through);
            var steps := Preparation(tenant) + [send, Returns(tenant, run, 5, true)] + [send];
            var t := Run(WholeRow, EMPTY, steps);
            TimelyRun(WholeRow, EMPTY, steps) && 1 in t.table && t.table[1].hist.executions == 2
  {
    var send := Send(1, owner, None, 5, Through);
    AfterPreparation(tenant, send, Returns(tenant, run, 5, true), [send]);
    var a := Apply(WholeRow, Prepared(tenant), send);
    assert a.table[1].hist.executions == 1 && Preparing(1, Copy(tenant)) in a.tasks;
    var b := Apply(WholeRow, a, Returns(tenant, run, 5, true));
    assert b.table[1].row.status == Pending && b.table[1].hist.executions == 1;
  }

  /** A reminder goes out while the dispatch runs; its stamp is gone when it returns. */
  lemma ReminderStampIsLost(tenant: string, run: string)
    ensures var remind := Remind(tenant, 1, HALF_DAY, HALF_DAY, {});
            var steps := Preparation(tenant) + [remind, Returns(tenant, run, HALF_DAY, false)] + [];
            var t := Run(WholeRow, EMPTY, steps);
            && TimelyRun(WholeRow, EMPTY, steps) && 1 in t.table
            && |t.table[1].hist.reminders| == 1 && t.table[1].row.snapshot.reminded == None
  {
    var remind := Remind(tenant, 1, HALF_DAY, HALF_DAY, {});
    AfterPreparation(tenant, remind, Returns(tenant, run, HALF_DAY, false), []);
    RemindedOnce(tenant);
  }

  lemma RemindedOnce(tenant: string)
    ensures var a := Apply(WholeRow, Prepared(tenant), Remind(tenant, 1, HALF_DAY, HALF_DAY, {}));
            && a.table.Keys == {1} && a.tasks == {Preparing(1, Copy(tenant)), Pushing(1, 0, 1)} && a.clock == HALF_DAY
            && a.table[1].hist.reminders == [(HALF_DAY, HALF_DAY)] && a.table[1].row.status == Pending
            && a.table[1].row.tenant == tenant && a.table[1].row.expiresAt == DAY
  {
  }

  /** A reminder pass over a table whose one row is due. */
  lemma RemindsTheOne(s: State, tenant: string, now: int)
    requires s.table.Keys == {1} && ReminderDue(s.table[1].row, tenant, now) && now <= s.table[1].row.expiresAt
    ensures var t := RemindStep(s, tenant, 1, now, now, {});
            && 1 in t.table && t.table[1].hist.reminders == s.table[1].hist.reminders + [(now, now)]
            && t.tasks == s.tasks + {Pushing(1, |s.table[1].hist.reminders|, 1)}
  {
    var e := ExpireAll(s, tenant, now);
    assert e.table[1] == s.table[1] && DueIds(e.table, tenant, now) == {1};
    assert ListedLast(e.table, tenant, 1);
  }

  /** With a crash after the first write the row is still open, and is reminded again: two
      stamps, and two pushes of its card. */
  lemma RemindedTwice(tenant: string, run: string)
    ensures var remind := Remind(tenant, 1, HALF_DAY, HALF_DAY, {});
            var steps := Preparation(tenant) + [remind, Returns(tenant, run, HALF_DAY, true)] + [remind];
            var t := Run(WholeRow, EMPTY, steps);
            && TimelyRun(WholeRow, EMPTY, steps) && 1 in t.table && |t.table[1].hist.reminders| == 2
            && t.tasks == {Pushing(1, 0, 1), Pushing(1, 1, 1)}
  {
    var remind := Remind(tenant, 1, HALF_DAY, HALF_DAY, {});
    AfterPreparation(tenant, remind, Returns(tenant, run, HALF_DAY, true), [remind]);
    RemindedOnce(tenant);
    var a := Apply(WholeRow, Prepared(tenant), remind);
    var b := Apply(WholeRow, a, Returns(tenant, run, HALF_DAY, true));
    TornPreparation(tenant, a, run);
    RemindsTheOne(b, tenant, HALF_DAY);
  }

  lemma TornPreparation(tenant: string, s: State, run: string)
    requires s.table.Keys == {1} && s.tasks == {Preparing(1, Copy(tenant)), Pushing(1, 0, 1)}
    ensures var t := Apply(WholeRow, s, Returns(tenant, run, HALF_DAY, true));
            && t.table == map[1 := s.table[1].(row := Copy(tenant).(runId := run))]
            && t.tasks == {Pushing(1, 0, 1)} && t.clock == HALF_DAY
  {
  }

  // ── Never more than twice ───────────────────────────────────────────────

  predicate PrepOf(task: Task, id: nat) { task.id == id && (task.PrepQueued? || task.Preparing?) }

  /** The background preparation of a suggestion is still to finish. */
  ghost predicate InPreparation(s: State, id: nat) { exists task :: task in s.tasks && PrepOf(task, id) }

  /** Each suggestion is prepared at most once, so its pending copy is written back at
      most once. */
  ghost predicate OnePreparation(s: State) {
    forall a, b :: a in s.tasks && b in s.tasks && PrepOf(a, a.id) && PrepOf(b, a.id) ==> a == b
  }

  /** `spent` is whether the preparation is over: each count may be one higher then. */
  predicate Budget(e: Entry, spent: bool) {
    var extra := if spent then 1 else 0;
    && e.hist.executions <= 1 + extra
    && |e.hist.reminders| <= 1 + extra
    && (Open(e.row.status) ==> e.hist.executions <= extra)
    && (Open(e.row.status) && e.row.snapshot.reminded.None? ==> |e.hist.reminders| <= extra)
  }

  ghost predicate Bounded(s: State) {
    && (forall id :: id in s.table ==> Budget(s.table[id], !InPreparation(s, id)))
    && OnePreparation(s)
  }

  /** A step other than a completing preparation adds to a count only within the budget. */
  lemma BudgetKept(mode: Merge, s: State, step: Step, id: nat, spent: bool)
    requires Inv(false, s) && id in s.table && Budget(s.table[id], spent)
    requires step.FinishPrep? ==> !Returned(s, step.task, step.run, id)
    ensures Budget(Next(mode, s, step, id), spent)
  {
    var e := s.table[id];
    if step.FinishSend? && Returned(s, step.task, step.run, id) {
      assert TaskOk(false, s.table, step.task);
    } else if ByOwner(step) {
      OwnerBudget(e, step, spent);
    } else {
      LoopBudget(mode, s, step, id, spent);
    }
  }

  lemma OwnerBudget(e: Entry, step: Step, spent: bool)
    requires Budget(e, spent) && ByOwner(step)
    ensures Budget(OwnerNext(e, step), spent)
  {
  }

  lemma LoopBudget(mode: Merge, s: State, step: Step, id: nat, spent: bool)
    requires id in s.table && Budget(s.table[id], spent) && !ByOwner(step)
    requires step.FinishPrep? || step.FinishSend? ==> !Returned(s, step.task, step.run, id)
    ensures Budget(Next(mode, s, step, id), spent)
  {
  }

  /** The completing preparation itself spends the budget of its suggestion. */
  lemma BudgetSpent(mode: Merge, s: State, step: Step, id: nat)
    requires id in s.table && Budget(s.table[id], false)
    requires step.FinishPrep? && Returned(s, step.task, step.run, id)
    ensures Budget(Next(mode, s, step, id), true)
  {
  }

  lemma BudgetGrows(e: Entry, spent: bool)
    requires Budget(e, spent)
    ensures Budget(e, true)
  {
  }

  /** Preparations only start with their suggestion and only end otherwise. */
  lemma PreparationsEnd(mode: Merge, s: State, step: Step, id: nat)
    requires Inv(false, s) && OnePreparation(s) && id in s.table
    ensures InPreparation(Apply(mode, s, step), id) ==> InPreparation(s, id)
    ensures step.FinishPrep? && Returned(s, step.task, step.run, id) && step.task.Preparing? ==>
            InPreparation(s, id) && !InPreparation(Apply(mode, s, step), id)
  {
    var t := Apply(mode, s, step);
    PrepTasks(mode, s, step);
    if InPreparation(t, id) {
      var x :| x in t.tasks && PrepOf(x, id);
      assert x in s.tasks || x == PrepQueued(step.id) || PrepQueued(step.id) in s.tasks;
    }
  }

  /** Where a preparation task of the next state comes from. */
  lemma PrepTasks(mode: Merge, s: State, step: Step)
    ensures forall x :: x in Apply(mode, s, step).tasks && PrepOf(x, x.id) ==>
      || x in s.tasks
      || (step.Scan? && x == PrepQueued(step.id) && step.id !in s.table)
      || (step.StartPrep? && x.Preparing? && x.id == step.id && PrepQueued(step.id) in s.tasks)
  {
  }

  lemma BudgetStep(mode: Merge, s: State, step: Step, id: nat)
    requires Inv(false, s) && Bounded(s) && id in s.table
    ensures Budget(Next(mode, s, step, id), !InPreparation(Apply(mode, s, step), id))
  {
    var spent, e := !InPreparation(s, id), s.table[id];
    PreparationsEnd(mode, s, step, id);
    if step.FinishPrep? && Returned(s, step.task, step.run, id) {
      if step.task.Preparing? { BudgetSpent(mode, s, step, id); } else { BudgetGrows(e, spent); }
    } else {
      BudgetKept(mode, s, step, id, spent);
      BudgetGrows(Next(mode, s, step, id), spent);
    }
  }

  lemma StepBounded(mode: Merge, s: State, step: Step)
    requires Inv(false, s) && Bounded(s)
    ensures Bounded(Apply(mode, s, step))
  {
    var t := Apply(mode, s, step);
    PreparationsStayOne(mode, s, step);
    forall id | id in t.table ensures Budget(t.table[id], !InPreparation(t, id)) {
      if id in s.table {
        NextIsApply(mode, s, step, id);
        BudgetStep(mode, s, step, id);
      } else {
        NewHistory(mode, s, step, id);
      }
    }
  }

  lemma NewHistory(mode: Merge, s: State, step: Step, id: nat)
    requires id !in s.table && id in Apply(mode, s, step).table
    ensures Apply(mode, s, step).table[id].hist == NO_HISTORY
  {
  }

  lemma PreparationsStayOne(mode: Merge, s: State, step: Step)
    requires Inv(false, s) && OnePreparation(s)
    ensures OnePreparation(Apply(mode, s, step))
  {
    PrepTasks(mode, s, step);
    var t := Apply(mode, s, step);
    forall a, b | a in t.tasks && b in t.tasks && PrepOf(a, a.id) && PrepOf(b, a.id) ensures a == b {
      assert a in s.tasks ==> a.id in s.table;
      assert b in s.tasks ==> b.id in s.table;
    }
  }

  /** Under either way of saving, in every run and wherever it crashes: at most two
      executions and at most two stamped reminders per suggestion, and at most one each while no
      preparation of it has come to its end. */
  lemma {:induction false} StampedNeverMoreThanTwice(mode: Merge, s: State, steps: seq<Step>)
    requires Inv(false, s) && Bounded(s) && TimelyRun(mode, s, steps)
    ensures Bounded(Run(mode, s, steps))
    ensures forall id :: id in Run(mode, s, steps).table ==>
      && Run(mode, s, steps).table[id].hist.executions <= 2
      && |Run(mode, s, steps).table[id].hist.reminders| <= 2
    decreases |steps|
  {
    if steps != [] {
      StepInv(false, mode, s, steps[0]);
      StepBounded(mode, s, steps[0]);
      StampedNeverMoreThanTwice(mode, Apply(mode, s, steps[0]), steps[1..]);
    }
  }
}
