/** What each step leaves in the row it concerns, column by column, and what an owner can
    count on after a tap. */
module SuggestionEffects {
  import opened Common
  import opened Suggestions
  import opened SuggestionRuns
  import opened SuggestionResults
  import opened SuggestionCards

  /** Only one row may have changed. */
  ghost predicate OnlyRow(s: State, t: State, id: nat) {
    t.table.Keys == s.table.Keys && forall k :: k in s.table && k != id ==> t.table[k] == s.table[k]
  }

  /** The row takes these two values and keeps its other columns and its history. */
  predicate BecomesStatus(e: Entry, f: Entry, status: Status, snapshot: Snapshot) {
    f == e.(row := e.row.(status := status, snapshot := snapshot))
  }

  /** The draft after a request that may carry one: its text without blanks at the ends, or
      the old draft if nothing else is left of it. */
  predicate DraftAfter(before: string, edit: Option<string>, draft: string) {
    && (edit.None? ==> draft == before)
    && (edit.Some? && Strip(edit.value) == "" ==> draft == before)
    && (edit.Some? && Strip(edit.value) != "" ==> draft == Strip(edit.value))
  }

  // ── Owner requests ──────────────────────────────────────────────────────

  /** Dismissing an open suggestion dismisses it. */
  lemma Dismisses(mode: Merge, s: State, id: nat, actor: string, at: int)
    requires id in s.table && s.table[id].row.status in {Pending, Accepted}
    ensures var t := Apply(mode, s, Dismiss(id, actor, at));
            && OnlyRow(s, t, id) && t.tasks == s.tasks && t.clock == at
            && BecomesStatus(s.table[id], t.table[id], Dismissed,
                             s.table[id].row.snapshot.(dismissed := Some(Stamp(at, actor))))
  {
  }

  /** Accepting one accepts it; its draft may change with that. */
  lemma Accepts(mode: Merge, s: State, id: nat, actor: string, draft: Option<string>, at: int)
    requires id in s.table && s.table[id].row.status in {Pending, Accepted}
    ensures var t := Apply(mode, s, Accept(id, actor, draft, at, false));
            var d := t.table[id].row.draft;
            && OnlyRow(s, t, id) && t.tasks == s.tasks && t.clock == at
            && DraftAfter(s.table[id].row.draft, draft, d)
            && BecomesStatus(s.table[id].(row := s.table[id].row.(draft := d)), t.table[id], Accepted,
                             s.table[id].row.snapshot.(accepted := Some(Stamp(at, actor))))
  {
  }

  /** Reporting a suggestion that was sent records the report. */
  lemma Reports(mode: Merge, s: State, id: nat, actor: string, at: int)
    requires id in s.table && s.table[id].row.status in {Sent, Reported}
    ensures var t := Apply(mode, s, Report(id, actor, at));
            && OnlyRow(s, t, id) && t.tasks == s.tasks && t.clock == at
            && BecomesStatus(s.table[id], t.table[id], Reported,
                             s.table[id].row.snapshot.(reported := Some(Stamp(at, actor))))
  {
  }

  /** A crash after the first write of an accept or a send has saved the draft at most; so
      has one before the claim of a row that was accepted before. */
  lemma DraftOnly(mode: Merge, s: State, step: Step)
    requires || (step.Accept? && step.torn) || (step.Send? && step.cut.AfterDraft?)
             || (step.Send? && step.cut.AfterAccept? && OpenAt(s, step.id) && s.table[step.id].row.status == Accepted)
    requires step.id in s.table && s.table[step.id].row.status in {Pending, Accepted}
    ensures var t, e := Apply(mode, s, step), s.table[step.id];
            && OnlyRow(s, t, step.id) && t.tasks == s.tasks && t.clock == step.at
            && DraftAfter(e.row.draft, step.draft, t.table[step.id].row.draft)
            && t.table[step.id] == e.(row := e.row.(draft := t.table[step.id].row.draft))
  {
  }

  /** Requests about a suggestion that is not there, or not in a status that allows them,
      change nothing. */
  lemma Refused(mode: Merge, s: State, step: Step)
    requires ByOwner(step)
    requires step.id in s.table ==>
      if step.Report? then s.table[step.id].row.status !in {Sent, Reported}
      else s.table[step.id].row.status !in {Pending, Accepted}
    ensures Apply(mode, s, step) == s.(clock := step.at)
  {
  }

  /** The first acceptance stands; a send stamps one where there is none. */
  predicate AcceptedOnce(before: Snapshot, after: Snapshot, at: int, actor: string) {
    after.accepted == if before.accepted.Some? then before.accepted else Some(Stamp(at, actor))
  }

  /** Sending an open suggestion claims it: one more execution, under the key of its tenant,
      its action and its kind of task if AgentOS runs it, and a task that waits for it. */
  lemma Sends(mode: Merge, s: State, id: nat, actor: string, draft: Option<string>, at: int)
    requires id in s.table && s.table[id].row.status in {Pending, Accepted}
    ensures var t, e := Apply(mode, s, Send(id, actor, draft, at, Through)), s.table[id];
            && OnlyRow(s, t, id) && t.clock == at
            && var f := t.table[id];
               && DraftAfter(e.row.draft, draft, f.row.draft) && f.row.status == Sending
               && f.row == e.row.(status := Sending, draft := f.row.draft, snapshot := f.row.snapshot)
               && AcceptedOnce(e.row.snapshot, f.row.snapshot, at, actor)
               && f.row.snapshot == e.row.snapshot.(accepted := f.row.snapshot.accepted,
                                                    sending := Some(Stamp(at, actor)))
               && f.hist.executions == e.hist.executions + 1
               && f.hist == e.hist.(executions := f.hist.executions, keys := f.hist.keys)
  {
  }

  lemma SendStarts(mode: Merge, s: State, id: nat, actor: string, draft: Option<string>, at: int)
    requires id in s.table && s.table[id].row.status in {Pending, Accepted}
    ensures var t, e := Apply(mode, s, Send(id, actor, draft, at, Through)), s.table[id];
            && id in t.table
            && t.tasks == (if e.row.kind == StaleKnowledge then s.tasks
                           else s.tasks + {Executing(id, t.table[id].row, actor)})
            && t.table[id].hist.keys == e.hist.keys + match e.row.kind
                 case ContentGap => {TaskKey(e.row.tenant, "google_post", e.row.action)}
                 case UnansweredReviews => {TaskKey(e.row.tenant, "review_reply", e.row.action)}
                 case _ => {}
  {
  }

  /** A crash before the last write of a send leaves a pending row accepted and claimed by
      nobody. */
  lemma SendCut(mode: Merge, s: State, id: nat, actor: string, draft: Option<string>, at: int)
    requires id in s.table && s.table[id].row.status == Pending
    ensures var t, e := Apply(mode, s, Send(id, actor, draft, at, AfterAccept)), s.table[id];
            && OnlyRow(s, t, id) && t.tasks == s.tasks && t.clock == at
            && var f := t.table[id];
               && DraftAfter(e.row.draft, draft, f.row.draft)
               && AcceptedOnce(e.row.snapshot, f.row.snapshot, at, actor)
               && BecomesStatus(e.(row := e.row.(draft := f.row.draft)), f, Accepted,
                                e.row.snapshot.(accepted := f.row.snapshot.accepted))
  {
  }

  // ── Answers of dispatches ───────────────────────────────────────────────

  /** The owner's execution returned: the run id is saved, with the whole copy or alone,
      if AgentOS ran it; and a row that then says sending gets the execution record, its
      stamp and the status. */
  lemma SendFinishes(mode: Merge, s: State, task: Task, run: string, at: int)
    requires task in s.tasks && task.Executing? && task.id in s.table
    ensures var t, e := Apply(mode, s, FinishSend(task, Some(run), at, false)), s.table[task.id];
            var saved := if task.copy.kind !in {ContentGap, UnansweredReviews} then e.row
                         else (if mode == WholeRow then task.copy else e.row).(runId := run);
            && OnlyRow(s, t, task.id) && t.tasks == s.tasks - {task} && t.clock == at
            && t.table[task.id] == e.(row :=
                 if saved.status == Sending
                 then saved.(status := Sent, snapshot := task.copy.snapshot.(execution := Some(run),
                                                                            sent := Some(Stamp(at, task.actor))))
                 else saved)
  {
  }

  /** The background dispatch returned: the run id is saved, with the whole copy or alone;
      and a row that then says pending is recorded as accepted, sending and sent by the
      system. */
  lemma PreparationFinishes(mode: Merge, s: State, task: Task, run: string, at: int)
    requires task in s.tasks && task.Preparing? && task.id in s.table
    ensures var t, e := Apply(mode, s, FinishPrep(task, Some(run), at, false)), s.table[task.id];
            var saved := (if mode == WholeRow then task.copy else e.row).(runId := run);
            var stamp := Some(Stamp(at, "system:auto_proactive"));
            && OnlyRow(s, t, task.id) && t.tasks == s.tasks - {task} && t.clock == at
            && t.table[task.id] == e.(row :=
                 if saved.status == Pending
                 then saved.(status := Sent, snapshot := saved.snapshot.(accepted := stamp, sending := stamp,
                                                                        sent := stamp, execution := Some(run)))
                 else saved)
  {
  }

  /** Torn after the first write, either leaves the run id and what was saved with it. */
  lemma FinishTorn(mode: Merge, s: State, step: Step)
    requires (step.FinishPrep? && step.task.Preparing?) || (step.FinishSend? && step.task.Executing?)
    requires step.torn && step.run.Some? && step.task in s.tasks && step.task.id in s.table
    requires step.task.copy.kind in {ContentGap, UnansweredReviews}
    ensures var t, e := Apply(mode, s, step), s.table[step.task.id];
            && OnlyRow(s, t, step.task.id) && t.tasks == s.tasks - {step.task} && t.clock == step.at
            && var row := if mode == WholeRow then step.task.copy else e.row;
               t.table[step.task.id] == e.(row := row.(runId := step.run.value))
  {
  }

  /** A dispatch that raised leaves its row alone. */
  lemma DispatchRaises(mode: Merge, s: State, step: Step)
    requires (step.FinishPrep? && step.task.Preparing?) || (step.FinishSend? && step.task.Executing?)
    requires step.run.None? && step.task in s.tasks
    ensures Apply(mode, s, step) == s.(clock := step.at, tasks := s.tasks - {step.task})
  {
  }

  // ── Background work ─────────────────────────────────────────────────────

  /** The queued preparation dispatches a row that is still pending, under the key of its
      tenant and action, and holds a copy of it meanwhile; any other row is left alone. */
  lemma PreparationStarts(mode: Merge, s: State, id: nat)
    requires PrepQueued(id) in s.tasks && id in s.table && s.table[id].row.kind == ContentGap
    ensures var t, e := Apply(mode, s, StartPrep(id)), s.table[id];
            && OnlyRow(s, t, id) && t.clock == s.clock
            && (e.row.status == Pending ==>
                  && t.tasks == s.tasks - {PrepQueued(id)} + {Preparing(id, e.row)}
                  && t.table[id] == e.(hist := e.hist.(
                       keys := e.hist.keys + {TaskKey(e.row.tenant, "google_post", e.row.action)})))
            && (e.row.status != Pending ==> t.tasks == s.tasks - {PrepQueued(id)} && t.table[id] == e)
  {
  }

  /** Past its expiry and still open. */
  predicate IsOverdue(r: Row, tenant: string, at: int) {
    r.tenant == tenant && r.status in {Pending, Accepted} && r.expiresAt < at
  }

  /** What a scan or a reminder pass does to a row that is not due for anything else. */
  predicate Expires(e: Entry, f: Entry, tenant: string, at: int) {
    if IsOverdue(e.row, tenant, at)
    then f == Entry(e.row.(status := Expired), e.hist.(expired := true))
    else f == e
  }

  /** A scan expires the tenant's overdue rows and touches no other. */
  lemma ScanExpires(mode: Merge, s: State, tenant: string, nudge: Option<Kind>, id: nat, prepare: bool, at: int,
                    later: int)
    ensures var t := Apply(mode, s, Scan(tenant, nudge, id, prepare, at, later));
            && t.clock == later
            && forall k :: k in s.table ==> k in t.table && Expires(s.table[k], t.table[k], tenant, at)
  {
  }

  /** An open suggestion of the tenant and type that has not expired yet. */
  predicate IsLive(r: Row, tenant: string, kind: Kind, later: int) {
    r.tenant == tenant && r.kind == kind && r.status in {Pending, Accepted} && r.expiresAt >= later
  }

  /** A nudge creates a suggestion exactly if none of its type is live when the overdue
      ones have expired. */
  lemma ScanCreates(mode: Merge, s: State, tenant: string, kind: Kind, id: nat, prepare: bool, at: int, later: int)
    requires id !in s.table && at <= later
    ensures var t := Apply(mode, s, Scan(tenant, Some(kind), id, prepare, at, later));
            var creates := forall k :: k in s.table ==> !IsLive(s.table[k].row, tenant, kind, later);
            && t.table.Keys == s.table.Keys + (if creates then {id} else {})
            && t.tasks == s.tasks + if creates && kind == ContentGap && prepare then {PrepQueued(id)} else {}
  {
    var x := ExpireAll(s, tenant, at).(clock := later);
    assert forall k :: k in s.table ==>
      (Active(x.table[k].row, tenant, kind, later) <==> IsLive(s.table[k].row, tenant, kind, later));
  }

  /** The new one is pending, for one day, and nothing has happened to it. */
  lemma ScanCreatesNew(mode: Merge, s: State, tenant: string, kind: Kind, id: nat, prepare: bool, at: int, later: int)
    requires id !in s.table
    ensures var t := Apply(mode, s, Scan(tenant, Some(kind), id, prepare, at, later));
            id in t.table ==>
              IsNew(t.table[id].row, tenant, kind, later) && t.table[id].hist == History(0, [], [], {}, false)
  {
  }

  predicate IsNew(r: Row, tenant: string, kind: Kind, now: int) {
    && r.tenant == tenant && r.kind == kind && r.status == Pending && r.runId == ""
    && r.expiresAt == now + 24 * 3600
    && r.snapshot == Snapshot(None, None, None, None, None, None, None)
  }

  /** Without a nudge nothing is created. */
  lemma ScanWithoutNudge(mode: Merge, s: State, tenant: string, id: nat, prepare: bool, at: int, later: int)
    ensures var t := Apply(mode, s, Scan(tenant, None, id, prepare, at, later));
            t.table.Keys == s.table.Keys && t.tasks == s.tasks
  {
  }

  /** In its last twelve hours, open and not stamped yet. */
  predicate IsDue(r: Row, tenant: string, later: int) {
    && r.tenant == tenant && r.status in {Pending, Accepted} && later >= r.expiresAt - 12 * 3600
    && r.snapshot.reminded == None
  }

  /** A whole reminder pass stamps exactly the due rows, after the overdue ones expired. */
  lemma PassStampsDue(mode: Merge, s: State, step: Step, id: nat)
    requires Passes(s, step) && id in s.table
    ensures var t, e := Apply(mode, s, step), s.table[id];
            && id in t.table && t.clock == step.later
            && (IsOverdue(e.row, step.tenant, step.at) || !IsDue(e.row, step.tenant, step.later) ==>
                  Expires(e, t.table[id], step.tenant, step.at))
            && (!IsOverdue(e.row, step.tenant, step.at) && IsDue(e.row, step.tenant, step.later) ==>
                  t.table[id] == Entry(e.row.(snapshot := e.row.snapshot.(reminded := Some(step.later))),
                                       e.hist.(reminders := e.hist.reminders + [(step.at, step.later)])))
  {
    NextIsApply(mode, s, step, id);
  }

  /** A restart forgets the suspended tasks and nothing else. */
  lemma RestartForgets(mode: Merge, s: State)
    ensures Apply(mode, s, ProcessRestart) == State(s.table, {}, s.clock)
  {
  }

  /** A push that goes out is noted with the row it shows; a failed one only ends. */
  lemma PushShows(mode: Merge, s: State, task: Task, ok: bool)
    requires task in s.tasks && task.Pushing? && task.shown in s.table
    ensures var t, e := Apply(mode, s, Push(task, ok)), s.table[task.shown];
            && OnlyRow(s, t, task.shown) && t.tasks == s.tasks - {task} && t.clock == s.clock
            && t.table[task.shown] ==
               if ok then e.(hist := e.hist.(cards := e.hist.cards + [(task.id, task.nth)])) else e
  {
  }

  // ── What owners can count on ────────────────────────────────────────────

  lemma {:induction false} QuietNeverReopens(mode: Merge, s: State, steps: seq<Step>, id: nat)
    requires Inv(false, s) && TimelyRun(mode, s, steps)
    requires id in s.table && !Open(s.table[id].row.status) && NothingInFlight(s, id)
    ensures NeverReopened(mode, s, steps, id)
    decreases |steps|
  {
    if steps != [] {
      StepInv(false, mode, s, steps[0]);
      ReopensExact(mode, s, steps[0], id);
      NothingStarts(mode, s, steps[0], id);
      QuietNeverReopens(mode, Apply(mode, s, steps[0]), steps[1..], id);
    }
  }

  /** A dismissal holds: with no dispatch of the suggestion in flight it stays dismissed in
      every run, crashes included, and is neither executed nor stamped any more; nor is its
      card pushed, unless a push was queued before. */
  lemma DismissalHolds(mode: Merge, s: State, id: nat, actor: string, at: int, steps: seq<Step>)
    requires Inv(false, s) && s.clock <= at && id in s.table && s.table[id].row.status in {Pending, Accepted}
    requires NothingInFlight(s, id) && TimelyRun(mode, Apply(mode, s, Dismiss(id, actor, at)), steps)
    ensures var e, t := s.table[id], Run(mode, Apply(mode, s, Dismiss(id, actor, at)), steps);
            && id in t.table && t.table[id].row.status == Dismissed
            && t.table[id].hist.executions == e.hist.executions && t.table[id].hist.reminders == e.hist.reminders
            && (NoneQueued(s, id) ==> t.table[id].hist.cards == e.hist.cards)
  {
    var d := Apply(mode, s, Dismiss(id, actor, at));
    Dismisses(mode, s, id, actor, at);
    StepInv(false, mode, s, Dismiss(id, actor, at));
    QuietNeverReopens(mode, d, steps, id);
    FinalStays(mode, d, steps, id);
    ClosedIsQuiet(mode, d, steps, id);
    if NoneQueued(s, id) { ClosedShowsNothing(mode, d, steps, id); }
  }
}
