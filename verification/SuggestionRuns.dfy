/** What holds along the runs of the suggestion model, crashes between any two writes
    included, and the one step that can break the strong part of it. */
module SuggestionRuns {
  import opened Common
  import opened Suggestions

  // ── The invariant ───────────────────────────────────────────────────────
  // Its basic part holds in every run. The full part adds the counts of executions and
  // stamped reminders and the uniqueness of live suggestions. What the pushes of those
  // reminders show is the subject of SuggestionCards.

  /** The stamps that a status vouches for. */
  predicate StampsOk(r: Row) {
    var s := r.snapshot;
    && (r.status == Accepted ==> s.accepted.Some?)
    && (r.status in {Sending, Sent, Reported} ==> s.accepted.Some? && s.sending.Some?)
    && (r.status in {Sent, Reported} ==> s.execution.Some? && s.sent.Some?)
    && (r.status == Reported ==> s.reported.Some?)
    && (r.status == Dismissed ==> s.dismissed.Some?)
  }

  /** Always dispatched under the same key. */
  predicate KeysOk(e: Entry) { e.hist.keys <= {KeyOf(e.row)} }

  predicate InTime(e: Entry, reminder: (int, int)) {
    e.row.expiresAt - HALF_DAY <= reminder.1 && reminder.0 <= e.row.expiresAt
  }

  /** Every stamped reminder falls in the last twelve hours, before the row expired. */
  predicate TimesOk(e: Entry) {
    forall i :: 0 <= i < |e.hist.reminders| ==> InTime(e, e.hist.reminders[i])
  }

  /** Stamped at most once, and the stamp of an open row says whether. */
  predicate RemindersOk(e: Entry) {
    && |e.hist.reminders| <= 1
    && (Open(e.row.status) ==> !e.hist.expired && (e.hist.reminders != [] <==> e.row.snapshot.reminded.Some?))
  }

  /** Executed at most once, and not while open. */
  predicate ExecutionsOk(e: Entry) {
    && e.hist.executions <= 1
    && (Open(e.row.status) ==> e.hist.executions == 0)
    && (e.row.status == Sending ==> e.hist.executions == 1)
  }

  predicate EntryOk(full: bool, e: Entry) {
    StampsOk(e.row) && KeysOk(e) && TimesOk(e) && (full ==> RemindersOk(e) && ExecutionsOk(e))
  }

  /** Columns that no step changes. */
  predicate SameIdentity(a: Row, b: Row) {
    a.tenant == b.tenant && a.kind == b.kind && a.action == b.action && a.expiresAt == b.expiresAt
  }

  predicate Claimed(s: Status) { s in {Sending, Sent, Reported} }

  /** What a suspended task's copy is a copy of. */
  predicate CopyOk(task: Task, row: Row) {
    match task
    case PrepQueued(_) => row.kind == ContentGap
    case Pushing(_, _, _) => true
    case Preparing(_, copy) => copy.kind == ContentGap && SameIdentity(copy, row) && copy.status == Pending
    case Executing(_, copy, _) => SameIdentity(copy, row) && copy.status == Sending && StampsOk(copy)
  }

  /** What its suggestion's history says about a suspended task. */
  predicate PlaceOk(task: Task, e: Entry) {
    match task
    case PrepQueued(_) => true
    case Pushing(_, _, _) => true
    case Preparing(_, copy) => copy.snapshot.reminded.Some? ==> e.hist.reminders != []
    case Executing(_, _, _) => e.hist.executions == 1 && Claimed(e.row.status)
  }

  /** A queued push belongs to a stamped reminder and shows a row of the same tenant. */
  predicate PushOk(table: map<nat, Entry>, task: Task)
    requires task.Pushing? && task.id in table
  {
    && task.nth < |table[task.id].hist.reminders|
    && task.shown in table && table[task.shown].row.tenant == table[task.id].row.tenant
  }

  predicate TaskOk(full: bool, table: map<nat, Entry>, task: Task) {
    && task.id in table && CopyOk(task, table[task.id].row)
    && (full ==> PlaceOk(task, table[task.id]))
    && (task.Pushing? ==> PushOk(table, task))
  }

  predicate Rivals(a: Row, b: Row) {
    Open(a.status) && Open(b.status) && a.tenant == b.tenant && a.kind == b.kind
  }

  /** Two open suggestions of one tenant and type are never both unexpired. */
  predicate OneActive(table: map<nat, Entry>, clock: int) {
    forall a, b :: a in table && b in table && a != b && Rivals(table[a].row, table[b].row) ==>
      table[a].row.expiresAt < clock || table[b].row.expiresAt < clock
  }

  ghost predicate Inv(full: bool, s: State) {
    && (forall id :: id in s.table ==> EntryOk(full, s.table[id]))
    && (forall task :: task in s.tasks ==> TaskOk(full, s.table, task))
    && (full ==> OneActive(s.table, s.clock))
  }

  const EMPTY := State(map[], {}, 0)

  /** How one suggestion may change: identity stays and what happened stays in the
      history; in full, a closed row never reopens and a claimed row stays claimed. */
  predicate Follows(full: bool, a: Entry, b: Entry) {
    && SameIdentity(a.row, b.row)
    && a.hist.executions <= b.hist.executions
    && a.hist.reminders <= b.hist.reminders
    && a.hist.cards <= b.hist.cards
    && (full ==> (Open(b.row.status) ==> Open(a.row.status)) && (Claimed(a.row.status) ==> Claimed(b.row.status)))
  }

  ghost predicate Evolves(full: bool, s: State, t: State) {
    s.clock <= t.clock && forall id :: id in s.table ==> id in t.table && Follows(full, s.table[id], t.table[id])
  }

  lemma EvolvesTransitive(full: bool, a: State, b: State, c: State)
    requires Evolves(full, a, b) && Evolves(full, b, c)
    ensures Evolves(full, a, c)
  {
  }

  // ── One entry at a time ─────────────────────────────────────────────────

  predicate Succeeds(full: bool, a: Entry, b: Entry) { Follows(full, a, b) && EntryOk(full, b) }

  lemma TaskKept(full: bool, table: map<nat, Entry>, next: map<nat, Entry>, task: Task)
    requires TaskOk(full, table, task) && task.id in next && Succeeds(full, table[task.id], next[task.id])
    requires task.Pushing? ==> task.shown in next && Succeeds(full, table[task.shown], next[task.shown])
    ensures TaskOk(full, next, task)
  {
  }

  /** If every entry keeps its rules while the clock runs on, so does the whole. */
  lemma TableInv(full: bool, s: State, t: State)
    requires Inv(full, s) && s.table.Keys == t.table.Keys && s.clock <= t.clock
    requires forall id :: id in s.table ==> Succeeds(full, s.table[id], t.table[id])
    requires forall task :: task in t.tasks && task !in s.tasks ==> TaskOk(full, t.table, task)
    ensures Inv(full, t) && Evolves(full, s, t)
  {
    forall task | task in t.tasks ensures TaskOk(full, t.table, task) {
      if task in s.tasks { TaskKept(full, s.table, t.table, task); }
    }
    forall id | id in t.table ensures EntryOk(full, t.table[id]) { assert Succeeds(full, s.table[id], t.table[id]); }
    if full { OneActiveKept(s, t); }
  }

  lemma OneActiveKept(s: State, t: State)
    requires OneActive(s.table, s.clock) && s.clock <= t.clock && s.table.Keys == t.table.Keys
    requires forall id :: id in s.table ==> Succeeds(true, s.table[id], t.table[id])
    ensures OneActive(t.table, t.clock)
  {
    forall a, b | a in t.table && b in t.table && a != b && Rivals(t.table[a].row, t.table[b].row)
      ensures t.table[a].row.expiresAt < t.clock || t.table[b].row.expiresAt < t.clock
    {
      assert Succeeds(true, s.table[a], t.table[a]) && Succeeds(true, s.table[b], t.table[b]);
      assert Rivals(s.table[a].row, s.table[b].row);
    }
  }

  lemma Unchanged(full: bool, e: Entry)
    requires EntryOk(full, e)
    ensures Succeeds(full, e, e)
  {
  }

  /** One entry moves, tasks come and go. */
  lemma UpdateInv(full: bool, s: State, id: nat, e: Entry, tasks: set<Task>)
    requires Inv(full, s) && id in s.table && Succeeds(full, s.table[id], e)
    requires forall task :: task in tasks && task !in s.tasks ==> TaskOk(full, s.table[id := e], task)
    ensures Inv(full, s.(table := s.table[id := e], tasks := tasks))
    ensures Evolves(full, s, s.(table := s.table[id := e], tasks := tasks))
  {
    var t := s.(table := s.table[id := e], tasks := tasks);
    forall k | k in s.table ensures Succeeds(full, s.table[k], t.table[k]) {
      if k != id { Unchanged(full, s.table[k]); }
    }
    TableInv(full, s, t);
  }

  lemma ClockInv(full: bool, s: State, tasks: set<Task>, now: int)
    requires Inv(full, s) && s.clock <= now && tasks <= s.tasks
    ensures Inv(full, s.(tasks := tasks, clock := now)) && Evolves(full, s, s.(tasks := tasks, clock := now))
  {
    var t := s.(tasks := tasks, clock := now);
    forall k | k in s.table ensures Succeeds(full, s.table[k], t.table[k]) { Unchanged(full, s.table[k]); }
    TableInv(full, s, t);
  }

  lemma ExpireOk(full: bool, e: Entry, tenant: string, now: int)
    requires EntryOk(full, e)
    ensures Succeeds(full, e, ExpireEntry(e, tenant, now)) && !Overdue(ExpireEntry(e, tenant, now).row, tenant, now)
  {
  }

  lemma RemindOk(full: bool, e: Entry, tenant: string, at: int, later: int)
    requires EntryOk(full, e) && !Overdue(e.row, tenant, at)
    ensures Succeeds(full, e, RemindEntry(e, tenant, at, later))
  {
    assert ReminderDue(e.row, tenant, later) ==> InTime(e, (at, later));
  }

  lemma EditOk(full: bool, e: Entry, draft: Option<string>)
    requires EntryOk(full, e)
    ensures Succeeds(full, e, e.(row := EditRow(e.row, draft)))
  {
  }

  lemma AcceptOk(full: bool, e: Entry, now: int, actor: string, draft: Option<string>)
    requires EntryOk(full, e) && Open(e.row.status)
    ensures Succeeds(full, e, e.(row := AcceptRow(e.row, now, actor, draft)))
  {
  }

  lemma DismissOk(full: bool, e: Entry, now: int, actor: string)
    requires EntryOk(full, e) && Open(e.row.status)
    ensures Succeeds(full, e, e.(row := DismissRow(e.row, now, actor)))
  {
  }

  lemma ReportOk(full: bool, e: Entry, now: int, actor: string)
    requires EntryOk(full, e) && e.row.status in {Sent, Reported}
    ensures Succeeds(full, e, e.(row := ReportedRow(e.row, now, actor)))
  {
  }

  lemma SendAcceptOk(full: bool, e: Entry, now: int, actor: string, draft: Option<string>)
    requires EntryOk(full, e) && Open(e.row.status)
    ensures Succeeds(full, e, e.(row := SendAcceptRow(e.row, now, actor, draft)))
  {
  }

  lemma SendOk(full: bool, e: Entry, actor: string, draft: Option<string>, now: int)
    requires EntryOk(full, e) && Open(e.row.status)
    ensures Succeeds(full, e, SendEntry(e, actor, draft, now))
  {
  }

  lemma StartPrepOk(full: bool, e: Entry)
    requires EntryOk(full, e)
    ensures Succeeds(full, e, StartPrepEntry(e))
  {
  }

  /** A stale copy of a pending row is written back although the row was closed, or
      reminded about, since the copy was taken. */
  predicate Stale(row: Row, copy: Row) {
    !Open(row.status) || (row.snapshot.reminded.Some? && copy.snapshot.reminded.None?)
  }

  lemma PreparedOk(full: bool, mode: Merge, e: Entry, task: Task, run: string, now: int, torn: bool)
    requires EntryOk(full, e) && task.Preparing? && CopyOk(task, e.row) && (full ==> PlaceOk(task, e))
    requires full ==> !(mode == WholeRow && torn && Stale(e.row, task.copy))
    ensures Succeeds(full, e, e.(row := PreparedRow(mode, e.row, task.copy, run, now, torn)))
  {
  }

  lemma FinishedOk(full: bool, mode: Merge, e: Entry, task: Task, run: string, now: int, torn: bool)
    requires EntryOk(full, e) && task.Executing? && CopyOk(task, e.row) && (full ==> PlaceOk(task, e))
    ensures Succeeds(full, e, e.(row := FinishedRow(mode, e.row, task.copy, run, now, task.actor, torn)))
  {
  }

  // ── One step at a time ──────────────────────────────────────────────────

  lemma ExpireInv(full: bool, s: State, tenant: string, at: int)
    requires Inv(full, s) && s.clock <= at
    ensures var t := ExpireAll(s, tenant, at);
            && Inv(full, t) && Evolves(full, s, t)
            && forall id :: id in t.table ==> !Overdue(t.table[id].row, tenant, at)
  {
    var t := ExpireAll(s, tenant, at);
    forall id | id in s.table
      ensures Succeeds(full, s.table[id], t.table[id]) && !Overdue(t.table[id].row, tenant, at)
    {
      ExpireOk(full, s.table[id], tenant, at);
    }
    TableInv(full, s, t);
  }

  /** The table after the stamping loop, and the pushes it queued. */
  lemma RemindRowsInv(full: bool, e: State, tenant: string, last: nat, at: int, later: int, missed: set<nat>)
    requires Inv(full, e) && e.clock <= later && forall id :: id in e.table ==> !Overdue(e.table[id].row, tenant, at)
    requires NoneListed(e.table, tenant) || ListedLast(e.table, tenant, last)
    ensures var t := e.(table := RemindAll(e, tenant, at, later, missed), clock := later,
                        tasks := e.tasks + if missed == {} then Pushes(e.table, tenant, later, last) else {});
            Inv(full, t) && Evolves(full, e, t)
  {
    var t := e.(table := RemindAll(e, tenant, at, later, missed), clock := later,
                tasks := e.tasks + if missed == {} then Pushes(e.table, tenant, later, last) else {});
    forall id | id in e.table ensures Succeeds(full, e.table[id], t.table[id]) {
      if id in missed { Unchanged(full, e.table[id]); } else { RemindOk(full, e.table[id], tenant, at, later); }
    }
    forall task | task in t.tasks && task !in e.tasks ensures TaskOk(full, t.table, task) {
      assert ReminderDue(e.table[task.id].row, tenant, later);
    }
    TableInv(full, e, t);
  }

  lemma RemindInv(full: bool, s: State, tenant: string, last: nat, at: int, later: int, missed: set<nat>)
    requires Inv(full, s) && s.clock <= at <= later
    ensures var t := RemindStep(s, tenant, last, at, later, missed); Inv(full, t) && Evolves(full, s, t)
  {
    ExpireInv(full, s, tenant, at);
    var e, t := ExpireAll(s, tenant, at), RemindStep(s, tenant, last, at, later, missed);
    if NoneListed(e.table, tenant) || ListedLast(e.table, tenant, last) {
      RemindRowsInv(full, e, tenant, last, at, later, missed);
      EvolvesTransitive(full, s, e, t);
    } else {
      ClockInv(full, s, s.tasks, s.clock);
    }
  }

  lemma ShowOk(full: bool, e: Entry, task: Task)
    requires EntryOk(full, e) && task.Pushing?
    ensures Succeeds(full, e, ShowEntry(e, task))
  {
  }

  lemma PushInv(full: bool, s: State, task: Task, ok: bool)
    requires Inv(full, s) && task in s.tasks && task.Pushing?
    ensures Inv(full, PushStep(s, task, ok)) && Evolves(full, s, PushStep(s, task, ok))
  {
    assert TaskOk(full, s.table, task);
    if ok {
      ShowOk(full, s.table[task.shown], task);
      UpdateInv(full, s, task.shown, ShowEntry(s.table[task.shown], task), s.tasks - {task});
    } else {
      ClockInv(full, s, s.tasks - {task}, s.clock);
    }
  }

  lemma CreateInv(full: bool, s: State, tenant: string, kind: Kind, id: nat, prepare: bool)
    requires Inv(full, s) && id !in s.table && !HasActive(s, tenant, kind, s.clock)
    ensures var t := Create(s, tenant, kind, id, prepare); Inv(full, t) && Evolves(full, s, t)
  {
    var t := Create(s, tenant, kind, id, prepare);
    NewEntryOk(full, tenant, kind, s.clock);
    NewTasksOk(full, s, tenant, kind, id, prepare);
    forall k | k in s.table ensures Follows(full, s.table[k], t.table[k]) { Unchanged(full, s.table[k]); }
    if full { NewOneActive(s, tenant, kind, id, t.table[id]); }
  }

  lemma NewTasksOk(full: bool, s: State, tenant: string, kind: Kind, id: nat, prepare: bool)
    requires id !in s.table && forall task :: task in s.tasks ==> TaskOk(full, s.table, task)
    ensures var t := Create(s, tenant, kind, id, prepare);
            forall task :: task in t.tasks ==> TaskOk(full, t.table, task)
  {
  }

  lemma NewEntryOk(full: bool, tenant: string, kind: Kind, now: int)
    ensures EntryOk(full, Entry(NewRow(tenant, kind, now), NO_HISTORY))
  {
  }

  lemma NewOneActive(s: State, tenant: string, kind: Kind, id: nat, e: Entry)
    requires OneActive(s.table, s.clock) && id !in s.table && !HasActive(s, tenant, kind, s.clock)
    requires e.row.tenant == tenant && e.row.kind == kind
    ensures OneActive(s.table[id := e], s.clock)
  {
    forall a | a in s.table && Rivals(s.table[a].row, e.row) ensures s.table[a].row.expiresAt < s.clock {
      assert !Active(s.table[a].row, tenant, kind, s.clock);
    }
  }

  lemma ScanInv(full: bool, s: State, tenant: string, nudge: Option<Kind>, id: nat, prepare: bool, at: int, later: int)
    requires Inv(full, s) && s.clock <= at <= later
    ensures var t := ScanStep(s, tenant, nudge, id, prepare, at, later); Inv(full, t) && Evolves(full, s, t)
  {
    ExpireInv(full, s, tenant, at);
    var x := ExpireAll(s, tenant, at);
    ClockInv(full, x, x.tasks, later);
    var e := x.(clock := later);
    EvolvesTransitive(full, s, x, e);
    if nudge.Some? && id !in e.table && !HasActive(e, tenant, nudge.value, later) {
      CreateInv(full, e, tenant, nudge.value, id, prepare);
      EvolvesTransitive(full, s, e, Create(e, tenant, nudge.value, id, prepare));
    }
  }

  lemma SendInv(full: bool, s: State, id: nat, actor: string, draft: Option<string>)
    requires Inv(full, s) && OpenAt(s, id)
    ensures Inv(full, SendStep(s, id, actor, draft)) && Evolves(full, s, SendStep(s, id, actor, draft))
  {
    SendOk(full, s.table[id], actor, draft, s.clock);
    var t := SendStep(s, id, actor, draft);
    UpdateInv(full, s, id, t.table[id], t.tasks);
  }

  lemma OwnerInv(full: bool, s: State, step: Step)
    requires Inv(full, s) && ByOwner(step)
    ensures Inv(full, OwnerStep(s, step)) && Evolves(full, s, OwnerStep(s, step))
  {
    var t := OwnerStep(s, step);
    var id := step.id;
    if t == s {
      ClockInv(full, s, s.tasks, s.clock);
    } else if step.Send? && step.cut.Through? {
      SendInv(full, s, id, step.actor, step.draft);
    } else {
      OwnerRowOk(full, s, step);
      UpdateInv(full, s, id, t.table[id], s.tasks);
    }
  }

  /** An owner request that starts no execution moves one row by the rules. */
  lemma OwnerRowOk(full: bool, s: State, step: Step)
    requires Inv(full, s) && ByOwner(step) && step.id in s.table && OwnerStep(s, step) != s
    requires !(step.Send? && step.cut.Through?)
    ensures Succeeds(full, s.table[step.id], OwnerStep(s, step).table[step.id])
    ensures OwnerStep(s, step) == s.(table := s.table[step.id := OwnerStep(s, step).table[step.id]])
  {
    var e := s.table[step.id];
    match step
    case Accept(_, actor, draft, at, torn) =>
      if torn { EditOk(full, e, draft); } else { AcceptOk(full, e, at, actor, draft); }
    case Dismiss(_, actor, at) => DismissOk(full, e, at, actor);
    case Report(_, actor, at) => ReportOk(full, e, at, actor);
    case Send(_, actor, draft, at, cut) =>
      if cut.AfterDraft? { EditOk(full, e, draft); } else { SendAcceptOk(full, e, at, actor, draft); }
  }

  lemma StartPrepInv(full: bool, s: State, id: nat)
    requires Inv(full, s) && PrepQueued(id) in s.tasks
    ensures Inv(full, StartPrepStep(s, id)) && Evolves(full, s, StartPrepStep(s, id))
  {
    assert TaskOk(full, s.table, PrepQueued(id));
    if s.table[id].row.status == Pending {
      StartPrepOk(full, s.table[id]);
      var t := StartPrepStep(s, id);
      UpdateInv(full, s, id, StartPrepEntry(s.table[id]), t.tasks);
    } else {
      ClockInv(full, s, s.tasks - {PrepQueued(id)}, s.clock);
    }
  }

  /** The one step that can break the full part: whole-row saving, a crash between the
      two writes of a background completion, and a stale copy. */
  predicate Reverts(mode: Merge, s: State, step: Step) {
    && mode == WholeRow && step.FinishPrep? && step.torn && step.run.Some?
    && step.task in s.tasks && step.task.Preparing? && step.task.id in s.table
    && Stale(s.table[step.task.id].row, step.task.copy)
  }

  lemma FinishPrepInv(full: bool, mode: Merge, s: State, task: Task, run: Option<string>, torn: bool)
    requires Inv(full, s) && task in s.tasks && task.Preparing?
    requires full ==> !Reverts(mode, s, FinishPrep(task, run, s.clock, torn))
    ensures Inv(full, FinishPrepStep(mode, s, task, run, torn))
    ensures Evolves(full, s, FinishPrepStep(mode, s, task, run, torn))
  {
    assert TaskOk(full, s.table, task);
    if run.Some? {
      var e := s.table[task.id];
      PreparedOk(full, mode, e, task, run.value, s.clock, torn);
      var row := PreparedRow(mode, e.row, task.copy, run.value, s.clock, torn);
      UpdateInv(full, s, task.id, e.(row := row), s.tasks - {task});
    } else {
      ClockInv(full, s, s.tasks - {task}, s.clock);
    }
  }

  lemma FinishSendInv(full: bool, mode: Merge, s: State, task: Task, run: Option<string>, torn: bool)
    requires Inv(full, s) && task in s.tasks && task.Executing?
    ensures Inv(full, FinishSendStep(mode, s, task, run, torn))
    ensures Evolves(full, s, FinishSendStep(mode, s, task, run, torn))
  {
    assert TaskOk(full, s.table, task);
    if run.Some? {
      var e := s.table[task.id];
      FinishedOk(full, mode, e, task, run.value, s.clock, torn);
      var row := FinishedRow(mode, e.row, task.copy, run.value, s.clock, task.actor, torn);
      UpdateInv(full, s, task.id, e.(row := row), s.tasks - {task});
    } else {
      ClockInv(full, s, s.tasks - {task}, s.clock);
    }
  }

  lemma FinishInv(full: bool, mode: Merge, s: State, step: Step)
    requires Inv(full, s) && Timely(s, step) && (step.FinishPrep? || step.FinishSend?)
    requires full ==> !Reverts(mode, s, step)
    ensures Inv(full, Apply(mode, s, step)) && Evolves(full, s, Apply(mode, s, step))
  {
    var now := s.(clock := step.at);
    ClockInv(full, s, s.tasks, step.at);
    ClockInv(full, s, s.tasks, s.clock);
    if step.task in s.tasks {
      match step {
        case FinishPrep(task, run, _, torn) => if task.Preparing? { FinishPrepInv(full, mode, now, task, run, torn); }
        case FinishSend(task, run, _, torn) => if task.Executing? { FinishSendInv(full, mode, now, task, run, torn); }
      }
      if Apply(mode, s, step) != s { EvolvesTransitive(full, s, now, Apply(mode, s, step)); }
    }
  }

  lemma OwnerStepInv(full: bool, mode: Merge, s: State, step: Step)
    requires Inv(full, s) && Timely(s, step) && ByOwner(step)
    ensures Inv(full, Apply(mode, s, step)) && Evolves(full, s, Apply(mode, s, step))
  {
    var now := s.(clock := step.at);
    ClockInv(full, s, s.tasks, step.at);
    OwnerInv(full, now, step);
    EvolvesTransitive(full, s, now, Apply(mode, s, step));
  }

  lemma StepInv(full: bool, mode: Merge, s: State, step: Step)
    requires Inv(full, s) && Timely(s, step) && (full ==> !Reverts(mode, s, step))
    ensures Inv(full, Apply(mode, s, step)) && Evolves(full, s, Apply(mode, s, step))
  {
    match step
    case Scan(tenant, nudge, id, prepare, at, later) => ScanInv(full, s, tenant, nudge, id, prepare, at, later);
    case StartPrep(id) =>
      if PrepQueued(id) in s.tasks { StartPrepInv(full, s, id); } else { ClockInv(full, s, s.tasks, s.clock); }
    case Remind(tenant, last, at, later, missed) => RemindInv(full, s, tenant, last, at, later, missed);
    case Push(task, ok) =>
      if task in s.tasks && task.Pushing? { PushInv(full, s, task, ok); } else { ClockInv(full, s, s.tasks, s.clock); }
    case ProcessRestart => ClockInv(full, s, {}, s.clock);
    case FinishPrep(_, _, _, _) => FinishInv(full, mode, s, step);
    case FinishSend(_, _, _, _) => FinishInv(full, mode, s, step);
    case _ => OwnerStepInv(full, mode, s, step);
  }

  /** A reverting step does break it: the row reopens, or loses its reminder stamp. */
  lemma StampedRevertsExact(mode: Merge, s: State, step: Step)
    requires Inv(true, s) && Timely(s, step)
    ensures Inv(true, Apply(mode, s, step)) && Evolves(true, s, Apply(mode, s, step)) <==> !Reverts(mode, s, step)
  {
    if Reverts(mode, s, step) { RevertBreaks(s, step); } else { StepInv(true, mode, s, step); }
  }

  lemma RevertBreaks(s: State, step: Step)
    requires Inv(true, s) && Reverts(WholeRow, s, step)
    ensures !(Inv(true, Apply(WholeRow, s, step)) && Evolves(true, s, Apply(WholeRow, s, step)))
  {
    var id, t := step.task.id, Apply(WholeRow, s, step);
    assert TaskOk(true, s.table, step.task) && EntryOk(true, s.table[id]);
    assert t.table[id] == s.table[id].(row := step.task.copy.(runId := step.run.value));
    assert !Succeeds(true, s.table[id], t.table[id]);
  }

  /** No step of the run reverts a row. */
  ghost predicate Unreverted(mode: Merge, s: State, steps: seq<Step>)
    decreases |steps|
  {
    steps != [] ==> !Reverts(mode, s, steps[0]) && Unreverted(mode, Apply(mode, s, steps[0]), steps[1..])
  }

  /** Along every timely run the basic part holds. The full part holds as long as no step
      reverts a row: then a suggestion is executed and stamped as reminded at most once
      each, a closed one never reopens, and no two live ones share tenant and type. */
  lemma {:induction false} RunInv(full: bool, mode: Merge, s: State, steps: seq<Step>)
    requires Inv(full, s) && TimelyRun(mode, s, steps) && (full ==> Unreverted(mode, s, steps))
    ensures Inv(full, Run(mode, s, steps)) && Evolves(full, s, Run(mode, s, steps))
    decreases |steps|
  {
    if steps != [] {
      var t := Apply(mode, s, steps[0]);
      StepInv(full, mode, s, steps[0]);
      RunInv(full, mode, t, steps[1..]);
      EvolvesTransitive(full, s, t, Run(mode, t, steps[1..]));
    } else {
      ClockInv(full, s, s.tasks, s.clock);
    }
  }

  /** Writing only the changed column, nothing ever reverts. */
  lemma {:induction false} ColumnsNeverRevert(s: State, steps: seq<Step>)
    ensures Unreverted(ChangedColumn, s, steps)
    decreases |steps|
  {
    if steps != [] { ColumnsNeverRevert(Apply(ChangedColumn, s, steps[0]), steps[1..]); }
  }
}
