/** What an administrator's replay repairs: convergence, stability, and the limits
    of redelivery, over every run of the pipeline. */
module MetaRecovery {
  import opened Common
  import opened MetaEvents
  import opened MetaPipeline

  /** Event, engagement and approval of a message are all present and linked. */
  ghost predicate Complete(db: Store, m: string) {
    && HasEvent(db.events, m)
    && m in db.engagements
    && RunFor(m) in db.approvals
    && Linked(db.engagements[m], RunFor(m), db.approvals[RunFor(m)])
  }

  lemma ApprovalIsLinked(s: State, m: string)
    requires Inv(s) && RunFor(m) in s.db.approvals
    ensures Complete(s.db, m)
  {
  }

  /** A replay that finds the engagement leaves all three rows present. */
  lemma ReplayCompletesSurvivor(s: State, key: EventKey, m: string)
    requires Inv(s) && key in s.db.events && Identifies(s.db.events[key], m) && m in s.db.engagements
    ensures Complete(Apply(s, Replay(key, false)).db, m)
  {
    var t := Apply(s, Replay(key, false));
    StepInv(s, Replay(key, false));
    assert RunOf(s.db.engagements[m]) == RunFor(m);
    assert RunFor(m) in t.db.approvals;
    ApprovalIsLinked(t, m);
  }

  /** A drafting task whose insert is not refused leaves all three rows present. */
  lemma ResumeCompletes(s: State, job: Job, reply: string)
    requires Inv(s) && job in s.jobs && job.draft.messageId !in s.db.engagements
    ensures Complete(Apply(s, Resume(job, reply, false)).db, job.draft.messageId)
  {
    StepInv(s, Resume(job, reply, false));
    ApprovalIsLinked(Apply(s, Resume(job, reply, false)), job.draft.messageId);
  }

  /** Recovery converges from every reachable state: a replay of a stored event either
      completes the message at once, or starts a task which completes it after any
      interleaving; and if another task inserted the engagement meanwhile, the next
      replay of the event completes it. */
  lemma RecoveryConverges(s: State, key: EventKey, m: string, between: seq<Step>, reply: string)
    requires Inv(s) && key in s.db.events && Identifies(s.db.events[key], m)
    ensures var s1 := Apply(s, Replay(key, false));
            var s2 := Run(s1, between);
            var job := Job(s.db.events[key].tenant, s.db.events[key].reading.value);
            && (m in s.db.engagements ==> Complete(s1.db, m))
            && (m !in s.db.engagements ==> s1.jobs == s.jobs + multiset{job})
            && (job in s2.jobs && m !in s2.db.engagements ==> Complete(Apply(s2, Resume(job, reply, false)).db, m))
            && (m in s2.db.engagements ==> Complete(Apply(s2, Replay(key, false)).db, m))
  {
    var s1 := Apply(s, Replay(key, false));
    StepInv(s, Replay(key, false));
    if m in s.db.engagements { ReplayCompletesSurvivor(s, key, m); }
    RunInv(s1, between);
    var s2 := Run(s1, between);
    var job := Job(s.db.events[key].tenant, s.db.events[key].reading.value);
    if job in s2.jobs && m !in s2.db.engagements { ResumeCompletes(s2, job, reply); }
    if m in s2.db.engagements {
      GrowsTransitive(s.db, s1.db, s2.db);
      ReplayCompletesSurvivor(s2, key, m);
    }
  }

  /** The owner decides or edits the approval. */
  predicate DecidesRun(step: Step, run: RunId) {
    (step.OwnerMarks? || step.OwnerApproves? || step.OwnerEdits?) && step.runId == run
  }

  lemma ReplayKeepsApproval(s: State, key: EventKey, crash: bool, run: RunId)
    requires run in s.db.approvals && key in s.db.events
    ensures run in ReplayEvent(s, key, crash).db.approvals
    ensures ReplayEvent(s, key, crash).db.approvals[run] == s.db.approvals[run]
  {
  }

  lemma ResumeKeepsApproval(s: State, job: Job, reply: string, crash: bool, run: RunId)
    requires run in s.db.approvals && (job.draft.messageId !in s.db.engagements ==> run != RunFor(job.draft.messageId))
    ensures run in ResumeJob(s, job, reply, crash).db.approvals
    ensures ResumeJob(s, job, reply, crash).db.approvals[run] == s.db.approvals[run]
  {
  }

  lemma ApprovalUntouched(s: State, step: Step, run: RunId)
    requires run in s.db.approvals && run.RunFor? && run.messageId in s.db.engagements && !DecidesRun(step, run)
    ensures run in Apply(s, step).db.approvals && Apply(s, step).db.approvals[run] == s.db.approvals[run]
  {
    match step
    case Resume(job, reply, crash) => if job in s.jobs { ResumeKeepsApproval(s, job, reply, crash, run); }
    case Replay(key, crash) => if key in s.db.events { ReplayKeepsApproval(s, key, crash, run); }
    case _ =>
  }

  lemma EngagementUntouched(s: State, step: Step, m: string)
    requires Inv(s) && m in s.db.engagements && s.db.engagements[m].runId != NoRun && !DecidesRun(step, RunFor(m))
    ensures m in Apply(s, step).db.engagements && Apply(s, step).db.engagements[m] == s.db.engagements[m]
  {
    if step.OwnerApproves? {
      if step.runId in s.db.approvals { ApprovesOther(s, step.runId, step.delivered, step.reply, step.crash, m); }
    } else {
      PipelineKeepsLinked(s, step, m);
    }
  }

  lemma PipelineKeepsLinked(s: State, step: Step, m: string)
    requires m in s.db.engagements && s.db.engagements[m].runId != NoRun && !step.OwnerApproves?
    ensures m in Apply(s, step).db.engagements && Apply(s, step).db.engagements[m] == s.db.engagements[m]
  {
    match step
    case Replay(key, crash) => if key in s.db.events { ReplayKeepsLinked(s, key, crash, m); }
    case Resume(job, reply, crash) => if job in s.jobs { ResumeKeepsEngagement(s, job, reply, crash, m); }
    case _ =>
  }

  lemma ApprovesOther(s: State, run: RunId, delivered: bool, reply: string, crash: bool, m: string)
    requires Inv(s) && run in s.db.approvals && run != RunFor(m) && m in s.db.engagements
    ensures var t := ApproveReply(s, run, delivered, reply, crash);
            m in t.db.engagements && t.db.engagements[m] == s.db.engagements[m]
  {
    NamedEngagement(s.db, run, m);
  }

  lemma ReplayKeepsLinked(s: State, key: EventKey, crash: bool, m: string)
    requires key in s.db.events && m in s.db.engagements && s.db.engagements[m].runId != NoRun
    ensures m in ReplayEvent(s, key, crash).db.engagements
    ensures ReplayEvent(s, key, crash).db.engagements[m] == s.db.engagements[m]
  {
  }

  lemma ResumeKeepsEngagement(s: State, job: Job, reply: string, crash: bool, m: string)
    requires m in s.db.engagements
    ensures m in ResumeJob(s, job, reply, crash).db.engagements
    ensures ResumeJob(s, job, reply, crash).db.engagements[m] == s.db.engagements[m]
  {
  }

  /** Complete stays complete in every run, and what the rows are about stays, whatever
      their owner decides or edits. */
  lemma CompleteStays(s: State, m: string, steps: seq<Step>)
    requires Inv(s) && Complete(s.db, m)
    ensures var t := Run(s, steps);
            && Complete(t.db, m)
            && Question(t.db.engagements[m]) == Question(s.db.engagements[m])
            && Subject(t.db.approvals[RunFor(m)]) == Subject(s.db.approvals[RunFor(m)])
  {
    RunInv(s, steps);
    ApprovalIsLinked(Run(s, steps), m);
  }

  /** An approved reply puts the text into the engagement of its own message. */
  lemma ApprovalAnswers(s: State, m: string, delivered: bool, reply: string)
    requires Inv(s) && Complete(s.db, m)
    ensures var t := Apply(s, OwnerApproves(RunFor(m), delivered, reply, false));
            && m in t.db.engagements && t.db.engagements[m] == s.db.engagements[m].(replyDraft := reply)
            && forall n :: n in s.db.engagements && n != m ==>
                 n in t.db.engagements && t.db.engagements[n] == s.db.engagements[n]
  {
    forall n | n in s.db.engagements
      ensures s.db.engagements[n].id == s.db.approvals[RunFor(m)].drafts.engagementId <==> n == m
    {
      NamedEngagement(s.db, RunFor(m), n);
    }
  }

  /** Once complete, later replays, redeliveries and drafting tasks leave the three
      rows of a message exactly as they are; only its owner's decision or edit writes them. */
  lemma {:induction false} CompleteIsStable(s: State, m: string, steps: seq<Step>)
    requires Inv(s) && Complete(s.db, m)
    requires forall i :: 0 <= i < |steps| ==> !DecidesRun(steps[i], RunFor(m))
    ensures var t := Run(s, steps);
            && Complete(t.db, m)
            && t.db.engagements[m] == s.db.engagements[m]
            && t.db.approvals[RunFor(m)] == s.db.approvals[RunFor(m)]
            && (forall k :: k in s.db.events ==> k in t.db.events && t.db.events[k] == s.db.events[k])
    decreases |steps|
  {
    if steps != [] {
      var t := Apply(s, steps[0]);
      StepInv(s, steps[0]);
      ApprovalUntouched(s, steps[0], RunFor(m));
      EngagementUntouched(s, steps[0], m);
      ApprovalIsLinked(t, m);
      CompleteIsStable(t, m, steps[1..]);
    }
  }

  /** A step of a run that only redelivers what is already recorded about `m`. */
  predicate OnlyRedelivers(events: map<EventKey, Stored>, m: string, step: Step) {
    match step
    case Ingest(_, item, _) => item.draft.messageId == m ==> ItemKey(item) in events
    case Replay(key, _) => key in events && !Identifies(events[key], m)
    case _ => true
  }

  predicate NoJobFor(s: State, m: string) {
    forall job :: job in s.jobs ==> job.draft.messageId != m
  }

  /** A lost engagement is never repaired by redelivery: without a task in flight and
      without a replay of its event, it stays absent however the run continues. */
  lemma {:induction false} RedeliveryNeverRepairs(s: State, m: string, steps: seq<Step>)
    requires Inv(s) && m !in s.db.engagements && NoJobFor(s, m)
    requires forall i :: 0 <= i < |steps| ==> OnlyRedelivers(s.db.events, m, steps[i])
    ensures m !in Run(s, steps).db.engagements && NoJobFor(Run(s, steps), m)
    decreases |steps|
  {
    if steps != [] {
      var t := Apply(s, steps[0]);
      assert OnlyRedelivers(s.db.events, m, steps[0]);
      RedeliveryStep(s, m, steps[0]);
      StepInv(s, steps[0]);
      forall i | 0 <= i < |steps| - 1 ensures OnlyRedelivers(t.db.events, m, steps[1..][i]) {
        assert OnlyRedelivers(s.db.events, m, steps[i + 1]);
      }
      RedeliveryNeverRepairs(t, m, steps[1..]);
    }
  }

  lemma RedeliveryStep(s: State, m: string, step: Step)
    requires m !in s.db.engagements && NoJobFor(s, m) && OnlyRedelivers(s.db.events, m, step)
    ensures m !in Apply(s, step).db.engagements && NoJobFor(Apply(s, step), m)
  {
    match step
    case Replay(key, crash) => ReplayOfOther(s, key, crash, m);
    case Ingest(pageId, item, crash) => IngestOfOther(s, pageId, item, crash, m);
    case Resume(job, reply, crash) => if job in s.jobs { ResumeOfOther(s, job, reply, crash, m); }
    case DraftingFails(job) => FewerJobsFor(s, s.jobs - multiset{job}, m);
    case _ =>
  }

  lemma FewerJobsFor(s: State, jobs: multiset<Job>, m: string)
    requires NoJobFor(s, m) && jobs <= s.jobs
    ensures NoJobFor(s.(jobs := jobs), m)
  {
    forall job | job in jobs ensures job.draft.messageId != m { assert job in s.jobs; }
  }

  lemma IngestOfOther(s: State, pageId: string, item: LiveItem, crash: bool, m: string)
    requires m !in s.db.engagements && NoJobFor(s, m) && (item.draft.messageId == m ==> ItemKey(item) in s.db.events)
    ensures m !in IngestItem(s, pageId, item, crash).db.engagements && NoJobFor(IngestItem(s, pageId, item, crash), m)
  {
  }

  lemma ResumeOfOther(s: State, job: Job, reply: string, crash: bool, m: string)
    requires m !in s.db.engagements && NoJobFor(s, m) && job in s.jobs
    ensures m !in ResumeJob(s, job, reply, crash).db.engagements && NoJobFor(ResumeJob(s, job, reply, crash), m)
  {
    FewerJobsFor(s, s.jobs - multiset{job}, m);
    assert job.draft.messageId != m;
  }

  lemma ReplayOfOther(s: State, key: EventKey, crash: bool, m: string)
    requires m !in s.db.engagements && NoJobFor(s, m) && key in s.db.events && !Identifies(s.db.events[key], m)
    ensures m !in ReplayEvent(s, key, crash).db.engagements && NoJobFor(ReplayEvent(s, key, crash), m)
  {
  }

  // ── Whose tenant a repaired approval belongs to ─────────────────────────

  /** The repaired approval takes the tenant of the replayed event, so it agrees with
      the engagement's tenant exactly when the event belongs to that tenant. */
  lemma RequeuedTenantExact(s: State, key: EventKey, m: string)
    requires Inv(s) && key in s.db.events && Identifies(s.db.events[key], m) && m in s.db.engagements
    requires RunFor(m) !in s.db.approvals
    ensures var db := Apply(s, Replay(key, false)).db;
            && RunFor(m) in db.approvals && m in db.engagements
            && (db.approvals[RunFor(m)].tenant == db.engagements[m].tenant <==>
                s.db.events[key].tenant == s.db.engagements[m].tenant)
  {
    assert RunOf(s.db.engagements[m]) == RunFor(m);
  }

  const EMPTY := State(Store(map[], map[], map[], 0, []), multiset{})

  /** A run that reaches the disagreement: a comment is ingested for one tenant, its
      task crashes after the engagement, the page moves to another tenant, Meta
      delivers the comment again, and the second tenant's event is replayed. */
  lemma CrossTenantRequeue(a: LiveItem, b: LiveItem, pageId: string, reply: string)
    requires a.tenant != b.tenant && a.draft == b.draft && Accepts(a.draft, pageId)
    ensures var m := a.draft.messageId;
            var s1 := Apply(EMPTY, Ingest(pageId, a, false));
            var s2 := Apply(s1, Resume(Job(a.tenant, a.draft), reply, true));
            var s3 := Apply(s2, Ingest(pageId, b, false));
            var db := Apply(s3, Replay(ItemKey(b), false)).db;
            && Inv(EMPTY)
            && m in db.engagements && RunFor(m) in db.approvals
            && db.engagements[m].tenant == a.tenant && db.approvals[RunFor(m)].tenant == b.tenant
  {
    assert ItemKey(a) != ItemKey(b);
    assert Identifies(b.stored, b.draft.messageId);
  }
}
