/** What one step of the Meta pipeline leaves in the tables, column by column, and what
    nobody but the owner does to a queued reply. */
module MetaEffects {
  import opened Common
  import opened MetaEvents
  import opened MetaPipeline
  import opened MetaRecovery

  // ── What a step leaves alone ────────────────────────────────────────────

  /** No event or engagement row is touched, and no approval but that of one run. */
  predicate OnlyApproval(a: Store, b: Store, run: RunId) {
    && b.events == a.events && b.engagements == a.engagements
    && b.approvals.Keys == a.approvals.Keys + {run}
    && forall r :: r in a.approvals && r != run ==> b.approvals[r] == a.approvals[r]
  }

  // ── Ingest ──────────────────────────────────────────────────────────────

  /** A new item with identity and text, not written by the page itself, is recorded as it
      is, and a task starts for its tenant unless its message has an engagement. */
  lemma IngestRecords(s: State, pageId: string, item: LiveItem, crash: bool)
    requires item.draft.messageId != "" && item.draft.content != "" && item.draft.authorId != pageId
    requires MetaItem(item.tenant, item.draft.kind, item.draft.messageId) !in s.db.events
    ensures var t := Apply(s, Ingest(pageId, item, crash));
            && t.db.events == s.db.events[MetaItem(item.tenant, item.draft.kind, item.draft.messageId) := item.stored]
            && t.db.engagements == s.db.engagements && t.db.approvals == s.db.approvals
            && t.jobs == if crash || item.draft.messageId in s.db.engagements then s.jobs
                         else s.jobs + multiset{Job(item.tenant, item.draft)}
  {
  }

  /** Anything else changes nothing. */
  lemma IngestSkips(s: State, pageId: string, item: LiveItem, crash: bool)
    requires || item.draft.messageId == "" || item.draft.content == "" || item.draft.authorId == pageId
             || MetaItem(item.tenant, item.draft.kind, item.draft.messageId) in s.db.events
    ensures Apply(s, Ingest(pageId, item, crash)) == s
  {
  }

  // ── The drafting task ───────────────────────────────────────────────────

  /** When the drafting call returns and the message is still new, its engagement holds the
      question and the reply of the task's tenant, and its approval waits for the owner
      with the same reply, question, author and source. */
  lemma QueuedReplyIsPending(s: State, job: Job, reply: string)
    requires Inv(s) && job in s.jobs && job.draft.messageId !in s.db.engagements
    ensures var d, t := job.draft, Apply(s, Resume(job, reply, false));
            && d.messageId in t.db.engagements && RunFor(d.messageId) in t.db.approvals
            && var e, a := t.db.engagements[d.messageId], t.db.approvals[RunFor(d.messageId)];
               && e.tenant == job.tenant && e.draft == d && e.replyDraft == reply && e.runId == RunFor(d.messageId)
               && a.status == "pending" && a.tenant == job.tenant && a.taskId == e.id
               && a.drafts.engagementId == e.id && a.drafts.replyDraft == reply
               && a.drafts.incomingText == d.content && a.drafts.engagementType == d.kind
               && a.drafts.authorName == d.authorName && a.drafts.authorId == d.authorId
               && a.drafts.sourceLabel == d.sourceLabel
  {
    NewRun(s, job.draft.messageId);
  }

  /** Nothing else moves. The id of the new engagement is its own. */
  lemma QueueTouchesOnly(s: State, job: Job, reply: string, crash: bool)
    requires Inv(s) && job in s.jobs && job.draft.messageId !in s.db.engagements
    ensures var m, t := job.draft.messageId, Apply(s, Resume(job, reply, crash));
            && t.jobs == s.jobs - multiset{job} && t.db.events == s.db.events
            && m in t.db.engagements && t.db.engagements == s.db.engagements[m := t.db.engagements[m]]
            && RunFor(m) !in s.db.approvals
            && (crash ==> t.db.approvals == s.db.approvals)
            && (!crash ==> RunFor(m) in t.db.approvals)
            && (!crash ==> t.db.approvals == s.db.approvals[RunFor(m) := t.db.approvals[RunFor(m)]])
  {
    NewRun(s, job.draft.messageId);
  }

  lemma NewId(s: State, job: Job, reply: string, crash: bool)
    requires Inv(s) && job in s.jobs && job.draft.messageId !in s.db.engagements
    ensures var m, t := job.draft.messageId, Apply(s, Resume(job, reply, crash));
            && m in t.db.engagements
            && forall n :: n in s.db.engagements ==> s.db.engagements[n].id != t.db.engagements[m].id
  {
  }

  /** No approval waits under the run of a message without engagement. */
  lemma NewRun(s: State, m: string)
    requires Inv(s) && m !in s.db.engagements
    ensures RunFor(m) !in s.db.approvals
  {
    assert RunFor(m) in s.db.approvals ==> HasEngagement(s.db, RunFor(m));
  }

  /** With a crash between the two inserts only the engagement is there, and its run id
      already says which approval is missing. */
  lemma TornQueue(s: State, job: Job, reply: string)
    requires Inv(s) && job in s.jobs && job.draft.messageId !in s.db.engagements
    ensures var d, t := job.draft, Apply(s, Resume(job, reply, true));
            && RunFor(d.messageId) !in t.db.approvals && d.messageId in t.db.engagements
            && var e := t.db.engagements[d.messageId];
               e.tenant == job.tenant && e.draft == d && e.replyDraft == reply && e.runId == RunFor(d.messageId)
  {
    NewRun(s, job.draft.messageId);
  }

  /** A task that comes second inserts nothing. */
  lemma LateTask(s: State, job: Job, reply: string, crash: bool)
    requires job in s.jobs && job.draft.messageId in s.db.engagements
    ensures Apply(s, Resume(job, reply, crash)) == s.(jobs := s.jobs - multiset{job})
  {
  }

  // ── Replay ──────────────────────────────────────────────────────────────

  /** `a`, or `b` where `a` is empty. */
  predicate FirstText(r: string, a: string, b: string) { if a != "" then r == a else r == b }

  /** The approval that a replay recreates waits for the owner: with the reply and the
      question that the engagement kept, its author or else the event's, and the tenant of
      the event. */
  lemma RecreatedReplyIsPending(s: State, key: EventKey, m: string)
    requires Inv(s) && key in s.db.events && Identifies(s.db.events[key], m)
    requires m in s.db.engagements && RunFor(m) !in s.db.approvals
    ensures var t := Apply(s, Replay(key, false));
            var event, d := s.db.events[key], s.db.events[key].reading.value;
            && RunFor(m) in t.db.approvals
            && var e, a := s.db.engagements[m], t.db.approvals[RunFor(m)];
               && a.status == "pending" && a.tenant == event.tenant && a.taskId == e.id
               && a.drafts.engagementId == e.id && a.drafts.replyDraft == e.replyDraft
               && a.drafts.incomingText == e.draft.content && a.drafts.engagementType == e.draft.kind
               && FirstText(a.drafts.authorName, e.draft.authorName, d.authorName)
               && FirstText(a.drafts.authorId, e.draft.authorId, d.authorId)
               && a.drafts.sourceLabel == d.sourceLabel
  {
  }

  /** Of the message's engagement only the run id may be filled in, and nothing else moves;
      a crash right after that leaves the approval missing. */
  lemma ReplayTouchesOnly(s: State, key: EventKey, m: string, crash: bool)
    requires Inv(s) && key in s.db.events && Identifies(s.db.events[key], m)
    requires m in s.db.engagements && RunFor(m) !in s.db.approvals
    ensures var t := Apply(s, Replay(key, crash));
            && t.jobs == s.jobs && t.db.events == s.db.events
            && t.db.engagements == s.db.engagements[m := s.db.engagements[m].(runId := RunFor(m))]
            && t.db.approvals.Keys == s.db.approvals.Keys + (if crash then {} else {RunFor(m)})
            && forall r :: r in s.db.approvals ==> t.db.approvals[r] == s.db.approvals[r]
  {
    assert s.db.engagements[m].runId in {NoRun, RunFor(m)} && RunOf(s.db.engagements[m]) == RunFor(m);
    assert s.db.engagements[m].runId == RunFor(m) ==>
      s.db.engagements == s.db.engagements[m := s.db.engagements[m].(runId := RunFor(m))];
  }

  /** A replay of a message without engagement starts its task again, for the tenant of the
      event and with what the event says. */
  lemma ReplayRestarts(s: State, key: EventKey, crash: bool)
    requires key in s.db.events && s.db.events[key].reading.Ok?
    requires s.db.events[key].reading.value.messageId !in s.db.engagements
    ensures Apply(s, Replay(key, crash)) ==
            s.(jobs := s.jobs + multiset{Job(s.db.events[key].tenant, s.db.events[key].reading.value)})
  {
  }

  /** A replay of a complete message, or of an unreadable event, changes nothing. */
  lemma ReplayOfNothing(s: State, key: EventKey, crash: bool)
    requires Inv(s) && key in s.db.events
    requires s.db.events[key].reading.Ok? ==>
      var m := s.db.events[key].reading.value.messageId; m in s.db.engagements && RunFor(m) in s.db.approvals
    ensures Apply(s, Replay(key, crash)) == s
  {
    if s.db.events[key].reading.Ok? {
      ApprovalIsLinked(s, s.db.events[key].reading.value.messageId);
    }
  }

  // ── The owner ───────────────────────────────────────────────────────────

  /** A pressed Reject button changes nothing at all, whatever there is to reject. */
  lemma RejectChangesNothing(s: State, run: RunId)
    ensures Apply(s, OwnerRejects(run)) == s
  {
  }

  /** Another status is written to its approval and nothing else. */
  lemma MarkWrites(s: State, run: RunId, status: string)
    requires run in s.db.approvals
    ensures var t := Apply(s, OwnerMarks(run, status));
            && OnlyApproval(s.db, t.db, run) && t.jobs == s.jobs
            && t.db.approvals[run] == s.db.approvals[run].(status := status)
  {
  }

  /** An approval says whether the reply was posted, also when the process ends before the
      engagement is rewritten, and also when it was decided before. */
  lemma ApproveDecides(s: State, run: RunId, delivered: bool, reply: string, crash: bool)
    requires Inv(s) && run in s.db.approvals
    ensures var t := Apply(s, OwnerApproves(run, delivered, reply, crash));
            var status := if delivered then "published" else "delivery_failed";
            && t.jobs == s.jobs && t.db.events == s.db.events
            && t.db.approvals == s.db.approvals[run := s.db.approvals[run].(status := status)]
            && (crash ==> t.db.engagements == s.db.engagements)
  {
    NamesEngagement(s.db, run);
  }

  lemma NamesEngagement(db: Store, run: RunId)
    requires ApprovalsOk(db) && run in db.approvals
    ensures HasId(db, db.approvals[run].drafts.engagementId)
  {
    assert HasEngagement(db, run);
  }

  /** Whatever the tables hold: the engagement that the drafts name gets the text and
      the run, no other one changes, and without it the request is refused. */
  lemma ApproveWrites(s: State, run: RunId, delivered: bool, reply: string, m: string)
    requires run in s.db.approvals && m in s.db.engagements
    ensures var t, e := Apply(s, OwnerApproves(run, delivered, reply, false)), s.db.engagements[m];
            && m in t.db.engagements
            && t.db.engagements[m] == if e.id == s.db.approvals[run].drafts.engagementId
                                      then e.(replyDraft := reply, runId := run) else e
  {
  }

  lemma ApproveRefused(s: State, run: RunId, delivered: bool, reply: string, crash: bool)
    requires run in s.db.approvals ==>
      forall m :: m in s.db.engagements ==> s.db.engagements[m].id != s.db.approvals[run].drafts.engagementId
    ensures Apply(s, OwnerApproves(run, delivered, reply, crash)) == s
  {
  }

  /** An edit replaces the reply and asks the owner again. */
  lemma EditAsksAgain(s: State, run: RunId, reply: string)
    requires run in s.db.approvals
    ensures var t := Apply(s, OwnerEdits(run, reply));
            var a, b := s.db.approvals[run], t.db.approvals[run];
            && OnlyApproval(s.db, t.db, run) && t.jobs == s.jobs
            && b.status == "pending" && b.drafts.replyDraft == reply && Subject(b) == Subject(a)
  {
  }

  // ── The rest of the world ───────────────────────────────────────────────

  /** A failed drafting call ends its task, a crash all of them; the tables stay. An event
      of another provider is recorded once. */
  lemma OthersMove(s: State, job: Job, key: EventKey, e: Stored)
    ensures Apply(s, DraftingFails(job)) == s.(jobs := s.jobs - multiset{job})
    ensures Apply(s, ProcessCrash) == s.(jobs := multiset{})
    ensures var t := Apply(s, RecordOther(key, e));
            && t.jobs == s.jobs && t.db.engagements == s.db.engagements && t.db.approvals == s.db.approvals
            && t.db.events == if key.OtherEvent? && key !in s.db.events && e.provider != "meta" && e.reading.Err?
                              then s.db.events[key := e] else s.db.events
  {
  }

  // ── Only owners decide ──────────────────────────────────────────────────

  /** A step that did not decide about this run leaves its approval as it is, or creates it
      pending. */
  lemma UndecidedStep(s: State, step: Step, run: RunId)
    requires Inv(s) && !DecidesRun(step, run) && run in Apply(s, step).db.approvals
    ensures if run in s.db.approvals then Apply(s, step).db.approvals[run] == s.db.approvals[run]
            else Apply(s, step).db.approvals[run].status == "pending"
  {
    if run in s.db.approvals {
      NamedByMessage(s.db, run);
      ApprovalUntouched(s, step, run);
    } else {
      CreatedPending(s, step, run);
    }
  }

  lemma NamedByMessage(db: Store, run: RunId)
    requires ApprovalsOk(db) && run in db.approvals
    ensures run.RunFor? && run.messageId in db.engagements
  {
    assert HasEngagement(db, run);
  }

  lemma CreatedPending(s: State, step: Step, run: RunId)
    requires run !in s.db.approvals && run in Apply(s, step).db.approvals
    ensures Apply(s, step).db.approvals[run].status == "pending"
  {
    match step
    case Resume(job, reply, crash) => if job in s.jobs { ResumeCreatesPending(s, job, reply, crash, run); }
    case Replay(key, crash) => if key in s.db.events { ReplayCreatesPending(s, key, crash, run); }
    case _ =>
  }

  lemma ResumeCreatesPending(s: State, job: Job, reply: string, crash: bool, run: RunId)
    requires run !in s.db.approvals && run in ResumeJob(s, job, reply, crash).db.approvals
    ensures ResumeJob(s, job, reply, crash).db.approvals[run].status == "pending"
  {
  }

  lemma ReplayCreatesPending(s: State, key: EventKey, crash: bool, run: RunId)
    requires key in s.db.events && run !in s.db.approvals && run in ReplayEvent(s, key, crash).db.approvals
    ensures ReplayEvent(s, key, crash).db.approvals[run].status == "pending"
  {
  }

  predicate Untold(steps: seq<Step>, run: RunId) {
    forall i :: 0 <= i < |steps| ==> !DecidesRun(steps[i], run)
  }

  /** Over every run of the pipeline, with crashes, replays and redeliveries anywhere: a
      reply that its owner neither approved nor edited nor marked is pending, also if the
      owner rejected it. */
  lemma {:induction false} UndecidedIsPending(s: State, steps: seq<Step>, run: RunId)
    requires Inv(s) && Untold(steps, run) && run in Run(s, steps).db.approvals
    requires run in s.db.approvals ==> s.db.approvals[run].status == "pending"
    ensures Run(s, steps).db.approvals[run].status == "pending"
    decreases |steps|
  {
    if steps != [] {
      var t := Apply(s, steps[0]);
      assert !DecidesRun(steps[0], run);
      StepInv(s, steps[0]);
      if run in t.db.approvals { UndecidedStep(s, steps[0], run); }
      UndecidedIsPending(t, steps[1..], run);
    }
  }

  lemma EveryRunAsksOwners(steps: seq<Step>, run: RunId)
    requires Untold(steps, run) && run in Run(EMPTY, steps).db.approvals
    ensures Run(EMPTY, steps).db.approvals[run].status == "pending"
  {
    UndecidedIsPending(EMPTY, steps, run);
  }

  predicate NeverMarked(steps: seq<Step>, run: RunId) {
    forall i :: 0 <= i < |steps| ==> !(steps[i].OwnerMarks? && steps[i].runId == run)
  }

  /** No run ever ends with a rejected reply, unless that status is written by other means
      than the Reject button. */
  lemma {:induction false} NothingIsRejected(s: State, steps: seq<Step>, run: RunId)
    requires Inv(s) && NeverMarked(steps, run) && run in Run(s, steps).db.approvals
    requires run in s.db.approvals ==> s.db.approvals[run].status in {"pending", "published", "delivery_failed"}
    ensures Run(s, steps).db.approvals[run].status in {"pending", "published", "delivery_failed"}
    decreases |steps|
  {
    if steps != [] {
      var t := Apply(s, steps[0]);
      StepInv(s, steps[0]);
      if run in t.db.approvals { StatusOfStep(s, steps[0], run); }
      NothingIsRejected(t, steps[1..], run);
    }
  }

  lemma StatusOfStep(s: State, step: Step, run: RunId)
    requires Inv(s) && !(step.OwnerMarks? && step.runId == run) && run in Apply(s, step).db.approvals
    ensures var status := Apply(s, step).db.approvals[run].status;
            || (run in s.db.approvals && status == s.db.approvals[run].status)
            || status in {"pending", "published", "delivery_failed"}
  {
    if !DecidesRun(step, run) {
      UndecidedStep(s, step, run);
    } else if step.OwnerApproves? && run in s.db.approvals {
      ApproveDecides(s, run, step.delivered, step.reply, step.crash);
    }
  }
}
