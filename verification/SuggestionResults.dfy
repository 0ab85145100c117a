/** What the runs of the suggestion model promise an owner, and where whole-row saving
    breaks the order of statuses. */
module SuggestionResults {
  import opened Common
  import opened Suggestions
  import opened SuggestionRuns

  /** From the empty table, whatever the interleaving and wherever it crashes. */
  lemma EveryRun(mode: Merge, steps: seq<Step>, id: nat)
    requires TimelyRun(mode, EMPTY, steps) && id in Run(mode, EMPTY, steps).table
    ensures var e := Run(mode, EMPTY, steps).table[id]; KeysOk(e) && StampsOk(e.row) && TimesOk(e)
  {
    RunInv(false, mode, EMPTY, steps);
    assert EntryOk(false, Run(mode, EMPTY, steps).table[id]);
  }

  /** At most one execution and one stamped reminder, in every run without a reverting
      step. */
  lemma StampedAtMostOnce(mode: Merge, steps: seq<Step>, id: nat)
    requires TimelyRun(mode, EMPTY, steps) && Unreverted(mode, EMPTY, steps)
    requires id in Run(mode, EMPTY, steps).table
    ensures var e := Run(mode, EMPTY, steps).table[id]; e.hist.executions <= 1 && |e.hist.reminders| <= 1
    ensures OneActive(Run(mode, EMPTY, steps).table, Run(mode, EMPTY, steps).clock)
  {
    RunInv(true, mode, EMPTY, steps);
    assert EntryOk(true, Run(mode, EMPTY, steps).table[id]);
  }

  /** If only the run id were written, that would hold in every run. */
  lemma ColumnSavesStampedAtMostOnce(steps: seq<Step>, id: nat)
    requires TimelyRun(ChangedColumn, EMPTY, steps) && id in Run(ChangedColumn, EMPTY, steps).table
    ensures var e := Run(ChangedColumn, EMPTY, steps).table[id]; e.hist.executions <= 1 && |e.hist.reminders| <= 1
  {
    ColumnsNeverRevert(EMPTY, steps);
    StampedAtMostOnce(ChangedColumn, steps, id);
  }

  // ── One suggestion's view of a step ─────────────────────────────────────

  /** The task waits for a dispatch. */
  predicate Dispatching(task: Task) { task.Preparing? || task.Executing? }

  /** The dispatch awaited by `task` has returned for suggestion `id`. */
  predicate Returned(s: State, task: Task, run: Option<string>, id: nat) {
    task in s.tasks && Dispatching(task) && task.id == id && run.Some?
  }

  /** What an owner request does to the row it names. */
  function OwnerNext(e: Entry, step: Step): Entry
    requires ByOwner(step)
  {
    match step
    case Accept(_, actor, draft, at, torn) =>
      if !Open(e.row.status) then e
      else e.(row := if torn then EditRow(e.row, draft) else AcceptRow(e.row, at, actor, draft))
    case Dismiss(_, actor, at) => if Open(e.row.status) then e.(row := DismissRow(e.row, at, actor)) else e
    case Send(_, actor, draft, at, cut) =>
      if !Open(e.row.status) then e
      else (match cut
            case Through => SendEntry(e, actor, draft, at)
            case AfterDraft => e.(row := EditRow(e.row, draft))
            case AfterAccept => e.(row := SendAcceptRow(e.row, at, actor, draft)))
    case Report(_, actor, at) =>
      if e.row.status in {Sent, Reported} then e.(row := ReportedRow(e.row, at, actor)) else e
  }

  /** What a step does to one suggestion that exists already. */
  function Next(mode: Merge, s: State, step: Step, id: nat): Entry
    requires id in s.table
  {
    var e := s.table[id];
    match step
    case Scan(tenant, _, _, _, at, _) => ExpireEntry(e, tenant, at)
    case Remind(tenant, last, at, later, missed) =>
      var table := ExpireAll(s, tenant, at).table;
      if !NoneListed(table, tenant) && !ListedLast(table, tenant, last) then e
      else if id in missed then table[id] else RemindEntry(table[id], tenant, at, later)
    case Push(task, ok) =>
      if task in s.tasks && task.Pushing? && ok && task.shown == id then ShowEntry(e, task) else e
    case StartPrep(k) =>
      if k == id && PrepQueued(id) in s.tasks && e.row.status == Pending then StartPrepEntry(e) else e
    case FinishPrep(task, run, at, torn) =>
      if Returned(s, task, run, id) && task.Preparing?
      then e.(row := PreparedRow(mode, e.row, task.copy, run.value, at, torn)) else e
    case FinishSend(task, run, at, torn) =>
      if Returned(s, task, run, id) && task.Executing?
      then e.(row := FinishedRow(mode, e.row, task.copy, run.value, at, task.actor, torn)) else e
    case ProcessRestart => e
    case _ => if step.id == id then OwnerNext(e, step) else e
  }

  lemma NextIsApply(mode: Merge, s: State, step: Step, id: nat)
    requires id in s.table
    ensures id in Apply(mode, s, step).table && Apply(mode, s, step).table[id] == Next(mode, s, step, id)
  {
    if ByOwner(step) { OwnerNextIsApply(mode, s, step, id); }
  }

  lemma OwnerNextIsApply(mode: Merge, s: State, step: Step, id: nat)
    requires id in s.table && ByOwner(step)
    ensures id in OwnerStep(s.(clock := step.at), step).table
    ensures OwnerStep(s.(clock := step.at), step).table[id] == Next(mode, s, step, id)
  {
  }

  // ── Closed rows ─────────────────────────────────────────────────────────

  /** A completing background dispatch, torn by a crash, writes its pending copy over a
      row that was closed since. */
  predicate Reopens(mode: Merge, s: State, step: Step, id: nat) {
    && mode == WholeRow && step.FinishPrep? && step.torn && Returned(s, step.task, step.run, id)
    && step.task.Preparing? && id in s.table && !Open(s.table[id].row.status)
  }

  /** A closed row reopens in that step and in no other. */
  lemma ReopensExact(mode: Merge, s: State, step: Step, id: nat)
    requires Inv(false, s) && id in s.table && !Open(s.table[id].row.status)
    ensures id in Apply(mode, s, step).table
    ensures Open(Apply(mode, s, step).table[id].row.status) <==> Reopens(mode, s, step, id)
  {
    NextIsApply(mode, s, step, id);
    if (step.FinishPrep? || step.FinishSend?) && Returned(s, step.task, step.run, id) {
      assert TaskOk(false, s.table, step.task);
    } else {
      ClosedStays(mode, s, step, id);
    }
  }

  lemma ClosedStays(mode: Merge, s: State, step: Step, id: nat)
    requires id in s.table && !Open(s.table[id].row.status)
    requires (step.FinishPrep? || step.FinishSend?) ==> !Returned(s, step.task, step.run, id)
    ensures !Open(Next(mode, s, step, id).row.status)
  {
  }

  /** No step of the run reopens suggestion `id`. */
  ghost predicate NeverReopened(mode: Merge, s: State, steps: seq<Step>, id: nat)
    decreases |steps|
  {
    steps != [] ==> !Reopens(mode, s, steps[0], id) && NeverReopened(mode, Apply(mode, s, steps[0]), steps[1..], id)
  }

  /** As long as that does not happen, nothing executes a closed suggestion, stamps a
      reminder on it, or opens it again, whatever the run does to other suggestions. */
  lemma {:induction false} ClosedIsQuiet(mode: Merge, s: State, steps: seq<Step>, id: nat)
    requires Inv(false, s) && TimelyRun(mode, s, steps) && id in s.table && !Open(s.table[id].row.status)
    requires NeverReopened(mode, s, steps, id)
    ensures id in Run(mode, s, steps).table
    ensures var e, f := s.table[id], Run(mode, s, steps).table[id];
            && !Open(f.row.status)
            && f.hist.executions == e.hist.executions && f.hist.reminders == e.hist.reminders
    decreases |steps|
  {
    if steps != [] {
      StepInv(false, mode, s, steps[0]);
      ReopensExact(mode, s, steps[0], id);
      NextIsApply(mode, s, steps[0], id);
      ClosedAddsNothing(mode, s, steps[0], id);
      ClosedIsQuiet(mode, Apply(mode, s, steps[0]), steps[1..], id);
    }
  }

  lemma ClosedAddsNothing(mode: Merge, s: State, step: Step, id: nat)
    requires id in s.table && !Open(s.table[id].row.status)
    ensures var e, f := s.table[id], Next(mode, s, step, id);
            f.hist.executions == e.hist.executions && f.hist.reminders == e.hist.reminders
  {
  }

  /** No queued push shows the suggestion. */
  predicate NoneQueued(s: State, id: nat) {
    forall task :: task in s.tasks && task.Pushing? ==> task.shown != id
  }

  lemma ClosedQueuesNothing(mode: Merge, s: State, step: Step, id: nat)
    requires id in s.table && !Open(s.table[id].row.status) && NoneQueued(s, id)
    ensures NoneQueued(Apply(mode, s, step), id)
    ensures Next(mode, s, step, id).hist.cards == s.table[id].hist.cards
  {
  }

  /** And its card is not pushed any more, but for pushes queued while it was open. */
  lemma {:induction false} ClosedShowsNothing(mode: Merge, s: State, steps: seq<Step>, id: nat)
    requires Inv(false, s) && TimelyRun(mode, s, steps) && id in s.table && !Open(s.table[id].row.status)
    requires NeverReopened(mode, s, steps, id) && NoneQueued(s, id)
    ensures id in Run(mode, s, steps).table
    ensures Run(mode, s, steps).table[id].hist.cards == s.table[id].hist.cards
    decreases |steps|
  {
    if steps != [] {
      StepInv(false, mode, s, steps[0]);
      ReopensExact(mode, s, steps[0], id);
      NextIsApply(mode, s, steps[0], id);
      ClosedQueuesNothing(mode, s, steps[0], id);
      ClosedShowsNothing(mode, Apply(mode, s, steps[0]), steps[1..], id);
    }
  }

  // ── The order of statuses ───────────────────────────────────────────────

  function Rank(s: Status): int {
    match s case Pending => 0 case Accepted => 1 case Sending => 2 case Sent => 3 case _ => 4
  }

  predicate Final(s: Status) { s in {Dismissed, Expired, Reported} }

  /** pending < accepted < sending < sent < reported; dismissed and expired leave the
      chain from an open status; the three final statuses stay. */
  predicate Forward(a: Status, b: Status) {
    a == b || (!Final(a) && Rank(a) < Rank(b) && (b in {Dismissed, Expired} ==> Open(a)))
  }

  /** The row got past what a completing dispatch writes: past the copied status if a
      crash stops it after the first write, past sent otherwise. */
  predicate Passed(current: Status, copied: Status, torn: bool) {
    Final(current) || (torn && Rank(current) > Rank(copied))
  }

  /** The completion of a dispatch whose suggestion got further while it ran. */
  predicate Overwrites(mode: Merge, s: State, step: Step, id: nat) {
    && mode == WholeRow && id in s.table && UsesAgentOS(s.table[id].row.kind)
    && (step.FinishPrep? || step.FinishSend?)
    && Returned(s, step.task, step.run, id)
    && (if step.FinishPrep? then step.task.Preparing? else step.task.Executing?)
    && Passed(s.table[id].row.status, step.task.copy.status, step.torn)
  }

  /** A status moves backward in exactly one case: under whole-row saving, when a
      dispatch completes on a suggestion that got past what it writes. */
  lemma ForwardExact(mode: Merge, s: State, step: Step, id: nat)
    requires Inv(false, s) && id in s.table
    ensures id in Apply(mode, s, step).table
    ensures Forward(s.table[id].row.status, Apply(mode, s, step).table[id].row.status) <==>
            !Overwrites(mode, s, step, id)
  {
    NextIsApply(mode, s, step, id);
    if (step.FinishPrep? || step.FinishSend?) && Returned(s, step.task, step.run, id) {
      assert TaskOk(false, s.table, step.task);
      FinishForward(mode, s, step, id);
    } else {
      GuardedForward(mode, s, step, id);
    }
  }

  lemma FinishForward(mode: Merge, s: State, step: Step, id: nat)
    requires id in s.table && (step.FinishPrep? || step.FinishSend?) && Returned(s, step.task, step.run, id)
    requires CopyOk(step.task, s.table[id].row)
    ensures Forward(s.table[id].row.status, Next(mode, s, step, id).row.status) <==> !Overwrites(mode, s, step, id)
  {
    var row := s.table[id].row;
    if step.FinishPrep? && step.task.Preparing? {
      PreparedForward(mode, row, step.task.copy, step.run.value, step.at, step.torn);
    } else if step.FinishSend? && step.task.Executing? {
      FinishedForward(mode, row, step.task.copy, step.run.value, step.at, step.task.actor, step.torn);
    }
  }

  lemma PreparedForward(mode: Merge, r: Row, copy: Row, run: string, at: int, torn: bool)
    requires copy.status == Pending
    ensures Forward(r.status, PreparedRow(mode, r, copy, run, at, torn).status) <==>
            !(mode == WholeRow && Passed(r.status, copy.status, torn))
  {
  }

  lemma FinishedForward(mode: Merge, r: Row, copy: Row, run: string, at: int, actor: string, torn: bool)
    requires copy.status == Sending
    ensures Forward(r.status, FinishedRow(mode, r, copy, run, at, actor, torn).status) <==>
            !(mode == WholeRow && UsesAgentOS(copy.kind) && Passed(r.status, copy.status, torn))
  {
  }

  lemma GuardedForward(mode: Merge, s: State, step: Step, id: nat)
    requires id in s.table
    requires (step.FinishPrep? || step.FinishSend?) ==> !Returned(s, step.task, step.run, id)
    ensures Forward(s.table[id].row.status, Next(mode, s, step, id).row.status)
  {
  }

  /** If only the run id were written, no status would ever move backward. */
  lemma ColumnSavesAreForward(s: State, step: Step, id: nat)
    requires Inv(false, s) && id in s.table
    ensures id in Apply(ChangedColumn, s, step).table
    ensures Forward(s.table[id].row.status, Apply(ChangedColumn, s, step).table[id].row.status)
  {
    ForwardExact(ChangedColumn, s, step, id);
  }

  /** No dispatch of the suggestion is waiting for its answer. */
  predicate NothingInFlight(s: State, id: nat) {
    forall task :: task in s.tasks && Dispatching(task) ==> task.id != id
  }

  /** With no dispatch in flight a final status is final, whichever way rows are saved
      and whatever the run does, crashes included. */
  lemma {:induction false} FinalStays(mode: Merge, s: State, steps: seq<Step>, id: nat)
    requires id in s.table && Final(s.table[id].row.status) && NothingInFlight(s, id)
    ensures id in Run(mode, s, steps).table
    ensures Run(mode, s, steps).table[id].row.status == s.table[id].row.status
    decreases |steps|
  {
    if steps != [] {
      NextIsApply(mode, s, steps[0], id);
      GuardedForward(mode, s, steps[0], id);
      NothingStarts(mode, s, steps[0], id);
      FinalStays(mode, Apply(mode, s, steps[0]), steps[1..], id);
    }
  }

  lemma NothingStarts(mode: Merge, s: State, step: Step, id: nat)
    requires id in s.table && !Open(s.table[id].row.status) && NothingInFlight(s, id)
    ensures NothingInFlight(Apply(mode, s, step), id)
  {
  }

  // ── The reminder stamp ──────────────────────────────────────────────────

  /** A completing dispatch whose copy was taken before the reminder. */
  predicate DropsReminder(mode: Merge, s: State, step: Step, id: nat)
    requires id in s.table
  {
    && (step.FinishPrep? || step.FinishSend?)
    && Returned(s, step.task, step.run, id)
    && step.task.copy.snapshot.reminded.None?
    && (if step.FinishPrep? then mode == WholeRow && step.task.Preparing?
        else step.task.Executing? && (
               || (mode == WholeRow && UsesAgentOS(step.task.copy.kind))
               || (!step.torn && s.table[id].row.status == Sending)))
  }

  /** A later write drops the reminder stamp exactly when it stores such a copy. */
  lemma ReminderStampExact(mode: Merge, s: State, step: Step, id: nat)
    requires Inv(false, s) && id in s.table && s.table[id].row.snapshot.reminded.Some?
    ensures id in Apply(mode, s, step).table
    ensures Apply(mode, s, step).table[id].row.snapshot.reminded.Some? <==> !DropsReminder(mode, s, step, id)
  {
    NextIsApply(mode, s, step, id);
    if (step.FinishPrep? || step.FinishSend?) && Returned(s, step.task, step.run, id) {
      assert TaskOk(false, s.table, step.task);
      FinishReminder(mode, s, step, id);
    } else {
      GuardedReminder(mode, s, step, id);
    }
  }

  lemma FinishReminder(mode: Merge, s: State, step: Step, id: nat)
    requires id in s.table && s.table[id].row.snapshot.reminded.Some?
    requires (step.FinishPrep? || step.FinishSend?) && Returned(s, step.task, step.run, id)
    requires step.task.Executing? ==> step.task.copy.status == Sending
    ensures Next(mode, s, step, id).row.snapshot.reminded.Some? <==> !DropsReminder(mode, s, step, id)
  {
  }

  lemma GuardedReminder(mode: Merge, s: State, step: Step, id: nat)
    requires id in s.table && s.table[id].row.snapshot.reminded.Some?
    requires (step.FinishPrep? || step.FinishSend?) ==> !Returned(s, step.task, step.run, id)
    ensures Next(mode, s, step, id).row.snapshot.reminded.Some?
  {
  }

  // ── Draft and run id ────────────────────────────────────────────────────

  /** There is always a draft to send, and a sent row names the run that its execution
      record names. */
  predicate ContentOk(r: Row) {
    && r.draft != ""
    && (r.status in {Sent, Reported} && UsesAgentOS(r.kind) ==> r.snapshot.execution == Some(r.runId))
  }

  predicate DraftOk(task: Task) { Dispatching(task) ==> task.copy.draft != "" }

  ghost predicate ContentInv(s: State) {
    && (forall id :: id in s.table ==> ContentOk(s.table[id].row))
    && (forall task :: task in s.tasks ==> DraftOk(task))
  }

  lemma NextContent(s: State, step: Step, id: nat)
    requires Inv(false, s) && ContentInv(s) && id in s.table
    ensures ContentOk(Next(WholeRow, s, step, id).row)
  {
    assert ContentOk(s.table[id].row);
    if (step.FinishPrep? || step.FinishSend?) && Returned(s, step.task, step.run, id) {
      assert TaskOk(false, s.table, step.task) && DraftOk(step.task);
    } else if ByOwner(step) {
      OwnerContent(s.table[id], step);
    } else {
      LoopContent(s, step, id);
    }
  }

  lemma LoopContent(s: State, step: Step, id: nat)
    requires id in s.table && ContentOk(s.table[id].row) && !ByOwner(step)
    requires step.FinishPrep? || step.FinishSend? ==> !Returned(s, step.task, step.run, id)
    ensures ContentOk(Next(WholeRow, s, step, id).row)
  {
  }

  lemma OwnerContent(e: Entry, step: Step)
    requires ContentOk(e.row) && ByOwner(step)
    ensures ContentOk(OwnerNext(e, step).row)
  {
  }

  /** A task that a step starts holds the row as the step leaves it. */
  lemma NewTasksCopyRows(mode: Merge, s: State, step: Step, task: Task)
    requires task in Apply(mode, s, step).tasks && task !in s.tasks && Dispatching(task)
    ensures task.id in Apply(mode, s, step).table && task.copy == Apply(mode, s, step).table[task.id].row
  {
  }

  lemma DraftTextsPresent(kind: Kind)
    ensures DraftText(kind) != ""
  {
  }

  lemma ContentStep(s: State, step: Step)
    requires Inv(false, s) && ContentInv(s)
    ensures ContentInv(Apply(WholeRow, s, step))
  {
    var t := Apply(WholeRow, s, step);
    forall id | id in t.table ensures ContentOk(t.table[id].row) {
      if id in s.table {
        NextIsApply(WholeRow, s, step, id);
        NextContent(s, step, id);
      } else {
        OnlyScansCreate(WholeRow, s, step, id);
        DraftTextsPresent(step.nudge.value);
      }
    }
    forall task | task in t.tasks ensures DraftOk(task) {
      if task !in s.tasks && Dispatching(task) {
        NewTasksCopyRows(WholeRow, s, step, task);
        assert ContentOk(t.table[task.id].row);
      }
    }
  }

  /** Whole-row saving keeps the run id and the execution record in step, in every run. */
  lemma {:induction false} RunContent(s: State, steps: seq<Step>)
    requires Inv(false, s) && ContentInv(s) && TimelyRun(WholeRow, s, steps)
    ensures ContentInv(Run(WholeRow, s, steps))
    decreases |steps|
  {
    if steps != [] {
      StepInv(false, WholeRow, s, steps[0]);
      ContentStep(s, steps[0]);
      RunContent(Apply(WholeRow, s, steps[0]), steps[1..]);
    }
  }

  // ── The idempotency key ─────────────────────────────────────────────────

  ghost predicate StockActions(s: State) {
    forall id :: id in s.table ==> s.table[id].row.action == ActionText(s.table[id].row.kind)
  }

  lemma {:induction false} ActionsAreStock(mode: Merge, s: State, steps: seq<Step>)
    requires Inv(false, s) && StockActions(s) && TimelyRun(mode, s, steps)
    ensures StockActions(Run(mode, s, steps))
    decreases |steps|
  {
    if steps != [] {
      StepInv(false, mode, s, steps[0]);
      StepStock(mode, s, steps[0]);
      ActionsAreStock(mode, Apply(mode, s, steps[0]), steps[1..]);
    }
  }

  lemma StepStock(mode: Merge, s: State, step: Step)
    requires StockActions(s) && Evolves(false, s, Apply(mode, s, step))
    ensures StockActions(Apply(mode, s, step))
  {
    var t := Apply(mode, s, step);
    forall id | id in t.table ensures t.table[id].row.action == ActionText(t.table[id].row.kind) {
      if id in s.table { assert Follows(false, s.table[id], t.table[id]); } else { OnlyScansCreate(mode, s, step, id); }
    }
  }

  lemma OnlyScansCreate(mode: Merge, s: State, step: Step, id: nat)
    requires id !in s.table && id in Apply(mode, s, step).table
    ensures step.Scan? && step.nudge.Some? && step.id == id
    ensures Apply(mode, s, step).table[id].row == NewRow(step.tenant, step.nudge.value, step.later)
  {
  }

  /** The key does not depend on the suggestion: all suggestions of one tenant and type,
      at any time, are dispatched under the same key, and others under different ones. */
  lemma KeysCollide(mode: Merge, steps: seq<Step>, a: nat, b: nat)
    requires TimelyRun(mode, EMPTY, steps)
    requires a in Run(mode, EMPTY, steps).table && b in Run(mode, EMPTY, steps).table
    ensures var x, y := Run(mode, EMPTY, steps).table[a].row, Run(mode, EMPTY, steps).table[b].row;
            KeyOf(x) == KeyOf(y) <==> x.tenant == y.tenant && x.kind == y.kind
  {
    ActionsAreStock(mode, EMPTY, steps);
    var x, y := Run(mode, EMPTY, steps).table[a].row, Run(mode, EMPTY, steps).table[b].row;
    ActionTextsDiffer(x.kind, y.kind);
  }

  lemma ActionTextsDiffer(k: Kind, l: Kind)
    ensures ActionText(k) == ActionText(l) <==> k == l
  {
    assert ActionText(ContentGap)[0] == '發' && ActionText(ContentGap)[1] == '一';
    assert ActionText(UnansweredReviews)[0] == '起';
    assert ActionText(StaleKnowledge)[0] == '更';
    assert ActionText(RecoverSleeping)[0] == '發' && ActionText(RecoverSleeping)[1] == '送';
  }
}
