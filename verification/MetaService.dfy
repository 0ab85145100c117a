/** The pipeline as the program runs it: tables updated in place by repository calls,
    and the code segments between awaits as methods. Each segment is proved to move
    the tables exactly as the corresponding segment of the pipeline model. */
module MetaService {
  import opened Common
  import opened MetaEvents
  import opened MetaPipeline

  class Pipeline {
    var events: map<EventKey, Stored>
    var engagements: map<string, Engagement>
    var approvals: map<RunId, Approval>
    var nextId: nat
    var jobs: multiset<Job>
    ghost var log: seq<Write>

    ghost function Model(): State
      reads this
    {
      State(Store(events, engagements, approvals, nextId, log), jobs)
    }

    constructor ()
      ensures Model() == State(Store(map[], map[], map[], 0, []), multiset{})
      ensures Inv(Model())
    {
      events, engagements, approvals, nextId, jobs := map[], map[], map[], 0, multiset{};
      log := [];
    }

    // ── Repository calls ──────────────────────────────────────────────────

    method RecordWebhookEventIfNew(key: EventKey, e: Stored) returns (isNew: bool)
      modifies this`events, this`log
      ensures isNew <==> key !in old(events)
      ensures events == if isNew then old(events)[key := e] else old(events)
      ensures log == if isNew then old(log) + [InsertEvent(key)] else old(log)
    {
      isNew := key !in events;
      if isNew {
        events := events[key := e];
        log := log + [InsertEvent(key)];
      }
    }

    /** The unique index on the message id makes a second insert raise (None). */
    method CreateExternalEngagement(job: Job, reply: string) returns (id: Option<nat>)
      modifies this`engagements, this`nextId, this`log
      ensures id.None? <==> job.draft.messageId in old(engagements)
      ensures id.None? ==> engagements == old(engagements) && nextId == old(nextId) && log == old(log)
      ensures id.Some? ==>
        Model().db == AddEngagement(old(Model()).db, job, reply) && id.value == old(nextId)
    {
      var m := job.draft.messageId;
      if m in engagements { return None; }
      id := Some(nextId);
      engagements := engagements[m := Engagement(nextId, job.tenant, job.draft, reply, RunFor(m))];
      nextId := nextId + 1;
      log := log + [InsertEngagement(m)];
    }

    method SavePendingApproval(run: RunId, tenant: string, drafts: ReplyDrafts)
      modifies this`approvals, this`log
      ensures Model().db == SaveApproval(old(Model()).db, run, tenant, drafts)
      ensures approvals == old(approvals)[run := Approval(tenant, drafts.engagementId, "pending", drafts)]
      ensures log == old(log) + [if run in old(approvals) then ResetApproval(run) else InsertApproval(run)]
    {
      log := log + [if run in approvals then ResetApproval(run) else InsertApproval(run)];
      approvals := approvals[run := Approval(tenant, drafts.engagementId, "pending", drafts)];
    }

    // ── Segments ──────────────────────────────────────────────────────────

    /** The start of `_queue_meta_engagement`: a duplicate ends here, anything else
        suspends in the LLM call. */
    method StartDrafting(job: Job) returns (duplicate: bool)
      modifies this`jobs
      ensures duplicate <==> job.draft.messageId in engagements
      ensures Model() == StartQueue(old(Model()), job)
    {
      duplicate := job.draft.messageId in engagements;
      if !duplicate { jobs := jobs + multiset{job}; }
    }

    /** One comment or message of a webhook. `crash` ends the process after the event
        row is written. The result says whether the item counts as processed. */
    method IngestItem(pageId: string, item: LiveItem, crash: bool) returns (processed: bool)
      modifies this
      ensures Model() == MetaPipeline.IngestItem(old(Model()), pageId, item, crash)
      ensures processed <==> |log| > |old(log)| && !crash
    {
      var d := item.draft;
      if d.messageId == "" || d.content == "" || d.authorId == pageId { return false; }
      var isNew := RecordWebhookEventIfNew(ItemKey(item), item.stored);
      if !isNew || crash { return false; }
      var duplicate := StartDrafting(Job(item.tenant, d));
      return true;
    }

    /** The rest of `_queue_meta_engagement` once the LLM has answered. */
    method ResumeQueue(job: Job, reply: string, crash: bool) returns (queued: bool)
      requires job in jobs
      modifies this
      ensures Model() == ResumeJob(old(Model()), job, reply, crash)
      ensures queued <==> job.draft.messageId !in old(engagements) && !crash
      ensures queued ==>
        && RunFor(job.draft.messageId) in approvals
        && approvals[RunFor(job.draft.messageId)].status == "pending"
        && approvals[RunFor(job.draft.messageId)].tenant == job.tenant
        && approvals[RunFor(job.draft.messageId)].drafts.replyDraft == reply
    {
      jobs := jobs - multiset{job};
      var d := job.draft;
      var id := CreateExternalEngagement(job, reply);
      if id.None? || crash { return false; }
      SavePendingApproval(RunFor(d.messageId), job.tenant,
        ReplyDrafts(id.value, d.sourceLabel, d.authorName, d.authorId, d.content, reply, d.kind));
      return true;
    }

    /** `replay_stored_meta_webhook_event` up to its first await. */
    method ReplayStored(key: EventKey, crash: bool) returns (outcome: Result<bool, ReplayError>)
      requires key in events
      modifies this
      ensures Model() == ReplayEvent(old(Model()), key, crash)
      ensures outcome.Ok? <==> events[key].reading.Ok?
      ensures outcome.Err? ==> outcome.error == events[key].reading.error
      ensures outcome.Ok? ==>
        var m := events[key].reading.value.messageId;
        outcome.value <==> m !in old(engagements) || (!crash && RunOf(old(engagements)[m]) !in old(approvals))
    {
      var stored := events[key];
      if stored.reading.Err? { return Err(stored.reading.error); }
      var d := stored.reading.value;
      var m := d.messageId;
      if m in engagements {
        var e := engagements[m];
        var run := if e.runId == NoRun then RunFor(e.draft.messageId) else e.runId;
        if e.runId == NoRun {
          engagements := engagements[m := e.(runId := run)];
          log := log + [SetRun(m)];
        }
        if crash || run in approvals { return Ok(false); }
        SavePendingApproval(run, stored.tenant,
          ReplyDrafts(e.id, d.sourceLabel, Or(e.draft.authorName, d.authorName), Or(e.draft.authorId, d.authorId),
                      Or(e.draft.content, d.content), e.replyDraft, e.draft.kind));
        return Ok(true);
      }
      var duplicate := StartDrafting(Job(stored.tenant, d));
      return Ok(true);
    }
  }
}
