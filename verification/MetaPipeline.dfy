/** The Meta engagement pipeline as one event loop runs it: a step is the code
    between two awaits, a crash may fall between any two store writes, and live
    webhooks, redeliveries, admin replays and drafting tasks interleave freely. */
module MetaPipeline {
  import opened Common
  import opened MetaEvents

  /** The unique key of `kachu_webhook_events`: tenant, provider and dedupe key. For a
      Meta item the dedupe key is the injective text of its kind and message id
      (`MetaEvents.DedupeKeyInjective`), so it is kept here as that pair. */
  datatype EventKey = MetaItem(tenant: string, kind: Kind, messageId: string)
                    | OtherEvent(tenant: string, provider: string, dedupeKey: string)

  /** The run id column: blank, or the text `meta-engagement:` + message id, which is
      injective (`RunTextInjective`) and so kept as the message id. */
  datatype RunId = NoRun | RunFor(messageId: string)

  function RunText(run: RunId): string {
    match run case NoRun => "" case RunFor(m) => "meta-engagement:" + m
  }

  /** The column is blank, or the prefix and then the message id. */
  lemma RunTextShape(m: string)
    ensures RunText(NoRun) == "" && |RunText(RunFor(m))| == 16 + |m| && RunText(RunFor(m))[16..] == m
    ensures RunText(RunFor(m))[..16] == "meta-engagement:"
  {
  }

  lemma RunTextInjective(a: RunId, b: RunId)
    requires RunText(a) == RunText(b)
    ensures a == b
  {
    if a.RunFor? && b.RunFor? { PrefixInjective("meta-engagement:", a.messageId, b.messageId); }
  }

  /** A row of `kachu_external_engagements`, unique by external message id. */
  datatype Engagement = Engagement(id: nat, tenant: string, draft: Draft, replyDraft: string, runId: RunId)

  /** The JSON stored as an approval's draft content. */
  datatype ReplyDrafts = ReplyDrafts(
    engagementId: nat, sourceLabel: string, authorName: string, authorId: string,
    incomingText: string, replyDraft: string, engagementType: Kind)

  /** A row of `kachu_pending_approvals`, unique by run id. */
  datatype Approval = Approval(tenant: string, taskId: nat, status: string, drafts: ReplyDrafts)

  /** Every store write leaves one entry in the history. */
  datatype Write =
    | InsertEvent(key: EventKey)
    | InsertEngagement(messageId: string)
    | SetRun(messageId: string)
    | InsertApproval(runId: RunId)
    | ResetApproval(runId: RunId)

  datatype Store = Store(
    events: map<EventKey, Stored>,
    engagements: map<string, Engagement>,
    approvals: map<RunId, Approval>,
    nextId: nat,
    log: seq<Write>)

  /** A task suspended in the LLM call between the duplicate check and the insert. */
  datatype Job = Job(tenant: string, draft: Draft)

  datatype State = State(db: Store, jobs: multiset<Job>)

  /** `existing.related_run_id or f"meta-engagement:{id}"` */
  function RunOf(e: Engagement): (run: RunId)
    ensures e.runId != NoRun ==> run == e.runId
    ensures e.runId == NoRun ==> run == RunFor(e.draft.messageId)
  {
    if e.runId == NoRun then RunFor(e.draft.messageId) else e.runId
  }

  function KeyOf(tenant: string, d: Draft): EventKey {
    MetaItem(tenant, d.kind, d.messageId)
  }

  // ── Store writes ────────────────────────────────────────────────────────

  function AddEvent(db: Store, key: EventKey, e: Stored): Store {
    db.(events := db.events[key := e], log := db.log + [InsertEvent(key)])
  }

  function AddEngagement(db: Store, job: Job, reply: string): Store {
    var m := job.draft.messageId;
    db.(engagements := db.engagements[m := Engagement(db.nextId, job.tenant, job.draft, reply, RunFor(m))],
        nextId := db.nextId + 1,
        log := db.log + [InsertEngagement(m)])
  }

  function SetEngagementRun(db: Store, m: string, run: RunId): Store
    requires m in db.engagements
  {
    db.(engagements := db.engagements[m := db.engagements[m].(runId := run)], log := db.log + [SetRun(m)])
  }

  /** `save_pending_approval` is an upsert: on an existing run it overwrites the row
      and makes it pending again. */
  function SaveApproval(db: Store, run: RunId, tenant: string, drafts: ReplyDrafts): Store {
    db.(approvals := db.approvals[run := Approval(tenant, drafts.engagementId, "pending", drafts)],
        log := db.log + [if run in db.approvals then ResetApproval(run) else InsertApproval(run)])
  }

  // ── Segments between awaits ─────────────────────────────────────────────

  /** The start of `_queue_meta_engagement`, up to the LLM call. */
  function StartQueue(s: State, job: Job): State {
    if job.draft.messageId in s.db.engagements then s else s.(jobs := s.jobs + multiset{job})
  }

  function ItemKey(item: Item): EventKey { KeyOf(item.tenant, item.draft) }

  function IngestItem(s: State, pageId: string, item: LiveItem, crash: bool): State {
    if !Accepts(item.draft, pageId) || ItemKey(item) in s.db.events then s
    else
      var recorded := s.(db := AddEvent(s.db, ItemKey(item), item.stored));
      if crash then recorded else StartQueue(recorded, Job(item.tenant, item.draft))
  }

  /** The LLM answered: insert the engagement, then its approval. */
  function ResumeJob(s: State, job: Job, reply: string, crash: bool): (t: State)
    ensures t.db.events == s.db.events
  {
    var rest := s.jobs - multiset{job};
    var d := job.draft;
    if d.messageId in s.db.engagements then State(s.db, rest)
    else
      var inserted := AddEngagement(s.db, job, reply);
      if crash then State(inserted, rest)
      else State(SaveApproval(inserted, RunFor(d.messageId), job.tenant, DraftsOf(s.db.nextId, d, reply)), rest)
  }

  function DraftsOf(id: nat, d: Draft, reply: string): ReplyDrafts {
    ReplyDrafts(id, d.sourceLabel, d.authorName, d.authorId, d.content, reply, d.kind)
  }

  /** The drafts a replay rebuilds from a surviving engagement row. */
  function RebuiltDrafts(e: Engagement, d: Draft): ReplyDrafts {
    ReplyDrafts(e.id, d.sourceLabel, Or(e.draft.authorName, d.authorName), Or(e.draft.authorId, d.authorId),
                Or(e.draft.content, d.content), e.replyDraft, e.draft.kind)
  }

  /** `replay_stored_meta_webhook_event` up to its first await. */
  function ReplayEvent(s: State, key: EventKey, crash: bool): (t: State)
    requires key in s.db.events
    ensures t.db.events == s.db.events
  {
    match s.db.events[key].reading
    case Err(_) => s
    case Ok(d) =>
      if d.messageId in s.db.engagements then
        var e := s.db.engagements[d.messageId];
        var run := RunOf(e);
        var linked := if e.runId == NoRun then SetEngagementRun(s.db, d.messageId, run) else s.db;
        if crash || run in linked.approvals then s.(db := linked)
        else s.(db := SaveApproval(linked, run, s.db.events[key].tenant, RebuiltDrafts(e, d)))
      else StartQueue(s, Job(s.db.events[key].tenant, d))
  }

  // ── Runs ────────────────────────────────────────────────────────────────

  /** `OwnerApproves` has posted `reply`, or failed to; `OwnerMarks` writes any other status,
      as when an edit begins. The handler of Reject calls `decide_pending_approval` without
      the decision that it requires, which raises. */
  datatype Step =
    | Ingest(pageId: string, item: LiveItem, crash: bool)
    | Replay(key: EventKey, crash: bool)
    | Resume(job: Job, reply: string, crash: bool)
    | DraftingFails(job: Job)
    | ProcessCrash
    | OwnerRejects(runId: RunId)
    | OwnerMarks(runId: RunId, status: string)
    | OwnerApproves(runId: RunId, delivered: bool, reply: string, crash: bool)
    | OwnerEdits(runId: RunId, reply: string)
    | RecordOther(key: EventKey, event: Stored)

  /** An event of another provider; a Meta replay of it raises. */
  predicate OfOtherProvider(e: Stored) { e.provider != "meta" && e.reading.Err? }

  function SetApproval(s: State, run: RunId, a: Approval): State {
    s.(db := s.db.(approvals := s.db.approvals[run := a]))
  }

  predicate HasId(db: Store, id: nat) { exists m :: m in db.engagements && db.engagements[m].id == id }

  /** `update_external_engagement` after a reply was posted. */
  function AnswerEngagement(db: Store, id: nat, reply: string, run: RunId): Store {
    db.(engagements := map m | m in db.engagements ::
          if db.engagements[m].id == id then db.engagements[m].(replyDraft := reply, runId := run)
          else db.engagements[m])
  }

  /** A reply that was posted or not: decide the approval, whatever its status is, then
      write the text into the engagement its drafts name. Without that engagement the
      request is refused. */
  function ApproveReply(s: State, run: RunId, delivered: bool, reply: string, crash: bool): State
    requires run in s.db.approvals
  {
    var a := s.db.approvals[run];
    if !HasId(s.db, a.drafts.engagementId) then s
    else
      var decided := SetApproval(s, run, a.(status := if delivered then "published" else "delivery_failed"));
      if crash then decided else decided.(db := AnswerEngagement(decided.db, a.drafts.engagementId, reply, run))
  }

  /** A step that is not enabled changes nothing, so every step sequence is a run. */
  function Apply(s: State, step: Step): State {
    match step
    case Ingest(pageId, item, crash) => IngestItem(s, pageId, item, crash)
    case Replay(key, crash) => if key in s.db.events then ReplayEvent(s, key, crash) else s
    case Resume(job, reply, crash) => if job in s.jobs then ResumeJob(s, job, reply, crash) else s
    case DraftingFails(job) => s.(jobs := s.jobs - multiset{job})
    case ProcessCrash => s.(jobs := multiset{})
    case OwnerRejects(_) => s
    case OwnerMarks(run, status) =>
      if run in s.db.approvals then SetApproval(s, run, s.db.approvals[run].(status := status)) else s
    case OwnerApproves(run, delivered, reply, crash) =>
      if run in s.db.approvals then ApproveReply(s, run, delivered, reply, crash) else s
    case OwnerEdits(run, reply) =>
      if run !in s.db.approvals then s
      else
        var a := s.db.approvals[run];
        SetApproval(s, run, a.(status := "pending", drafts := a.drafts.(replyDraft := reply)))
    case RecordOther(key, e) =>
      if key.OtherEvent? && key !in s.db.events && OfOtherProvider(e) then s.(db := AddEvent(s.db, key, e)) else s
  }

  function Run(s: State, steps: seq<Step>): State
    decreases |steps|
  {
    if steps == [] then s else Run(Apply(s, steps[0]), steps[1..])
  }

  // ── The invariant of every run ──────────────────────────────────────────

  predicate Identifies(e: Stored, m: string) {
    e.reading.Ok? && e.reading.value.messageId == m
  }

  ghost predicate HasEvent(events: map<EventKey, Stored>, m: string) {
    exists key :: key in events && Identifies(events[key], m)
  }

  ghost predicate EngagementsOk(db: Store) {
    && (forall m :: m in db.engagements ==>
          && HasEvent(db.events, m)
          && db.engagements[m].draft.messageId == m
          && db.engagements[m].draft.content != ""
          && db.engagements[m].runId in {NoRun, RunFor(m)}
          && db.engagements[m].id < db.nextId)
    && (forall m, n :: m in db.engagements && n in db.engagements && m != n ==>
          db.engagements[m].id != db.engagements[n].id)
  }

  /** The approval and the engagement point at each other and carry the same question; the
      reply draft of an approval is the owner's to edit. */
  predicate Linked(e: Engagement, run: RunId, a: Approval) {
    && e.runId == run
    && a.taskId == e.id == a.drafts.engagementId
    && a.drafts.incomingText == e.draft.content
    && a.drafts.engagementType == e.draft.kind
  }

  ghost predicate HasEngagement(db: Store, run: RunId)
    requires run in db.approvals
  {
    exists m :: m in db.engagements && run == RunFor(m) && Linked(db.engagements[m], run, db.approvals[run])
  }

  ghost predicate ApprovalsOk(db: Store) {
    forall run :: run in db.approvals ==> HasEngagement(db, run)
  }

  ghost predicate JobsOk(s: State) {
    forall job :: job in s.jobs ==> job.draft.content != "" && HasEvent(s.db.events, job.draft.messageId)
  }

  /** What a past write still implies about the tables. */
  predicate Witnessed(db: Store, w: Write) {
    match w
    case InsertEvent(key) => key in db.events
    case InsertEngagement(m) => m in db.engagements
    case SetRun(m) => m in db.engagements && db.engagements[m].runId != NoRun
    case InsertApproval(run) => run in db.approvals
    case ResetApproval(_) => false
  }

  ghost predicate EachWriteOnce(log: seq<Write>) {
    forall i, j :: 0 <= i < j < |log| ==> log[i] != log[j]
  }

  ghost predicate LogOk(db: Store) {
    && EachWriteOnce(db.log)
    && (forall i :: 0 <= i < |db.log| ==> Witnessed(db, db.log[i]))
  }

  /** A Meta row names in its id column the message that it replays to. */
  predicate Regular(e: Stored) {
    if e.provider != "meta" then e.reading.Err?
    else
      && e.eventType in {"comment", "message"} && e.externalId != ""
      && e.reading.Ok? && e.reading.value.messageId == e.externalId
  }

  predicate EventsOk(db: Store) {
    forall key :: key in db.events ==> Regular(db.events[key])
  }

  ghost predicate Inv(s: State) {
    EngagementsOk(s.db) && ApprovalsOk(s.db) && JobsOk(s) && LogOk(s.db)
  }

  /** What an approval is about, whatever its owner decides or edits. */
  function Subject(a: Approval): Approval { a.(status := "", drafts := a.drafts.(replyDraft := "")) }

  /** What an engagement is about: all but its link and the reply that approval rewrites. */
  function Question(e: Engagement): Engagement { e.(runId := NoRun, replyDraft := "") }

  /** Rows are never deleted, what they are about never changes, history only grows. */
  ghost predicate Grows(a: Store, b: Store) {
    && (forall k :: k in a.events ==> k in b.events && b.events[k] == a.events[k])
    && (forall m :: m in a.engagements ==>
          m in b.engagements && Question(b.engagements[m]) == Question(a.engagements[m]) &&
          (a.engagements[m].runId != NoRun ==> b.engagements[m].runId == a.engagements[m].runId))
    && (forall r :: r in a.approvals ==> r in b.approvals && Subject(b.approvals[r]) == Subject(a.approvals[r]))
    && a.log <= b.log
  }

  lemma HasEventGrows(a: Store, b: Store, m: string)
    requires Grows(a, b) && HasEvent(a.events, m)
    ensures HasEvent(b.events, m)
  {
  }

  lemma EventInv(s: State, key: EventKey, e: Stored)
    requires Inv(s) && key !in s.db.events
    ensures Inv(s.(db := AddEvent(s.db, key, e))) && Grows(s.db, AddEvent(s.db, key, e))
  {
    var db := AddEvent(s.db, key, e);
    assert Grows(s.db, db);
    forall m | HasEvent(s.db.events, m) ensures HasEvent(db.events, m) { HasEventGrows(s.db, db, m); }
    forall run | run in db.approvals ensures HasEngagement(db, run) { assert HasEngagement(s.db, run); }
    LogStep(s.db, db, InsertEvent(key));
  }

  lemma LogStep(a: Store, b: Store, w: Write)
    requires LogOk(a) && Grows(a, b) && b.log == a.log + [w]
    requires !Witnessed(a, w) && Witnessed(b, w)
    ensures LogOk(b)
  {
  }

  lemma StartQueueInv(s: State, job: Job)
    requires Inv(s) && job.draft.content != "" && HasEvent(s.db.events, job.draft.messageId)
    ensures Inv(StartQueue(s, job)) && StartQueue(s, job).db == s.db
  {
  }

  lemma IngestInv(s: State, pageId: string, item: LiveItem, crash: bool)
    requires Inv(s)
    ensures var t := IngestItem(s, pageId, item, crash); Inv(t) && Grows(s.db, t.db)
  {
    var key := ItemKey(item);
    if Accepts(item.draft, pageId) && key !in s.db.events {
      EventInv(s, key, item.stored);
      var recorded := s.(db := AddEvent(s.db, key, item.stored));
      assert Identifies(recorded.db.events[key], item.draft.messageId);
      if !crash { StartQueueInv(recorded, Job(item.tenant, item.draft)); }
    }
  }

  lemma SaveApprovalInv(s: State, m: string, tenant: string, drafts: ReplyDrafts)
    requires Inv(s) && m in s.db.engagements && RunFor(m) !in s.db.approvals
    requires Linked(s.db.engagements[m], RunFor(m), Approval(tenant, drafts.engagementId, "pending", drafts))
    ensures var db := SaveApproval(s.db, RunFor(m), tenant, drafts); Inv(s.(db := db)) && Grows(s.db, db)
  {
    var run := RunFor(m);
    var db := SaveApproval(s.db, run, tenant, drafts);
    ApprovalGrows(s.db, run, tenant, drafts);
    NewApprovalOk(s.db, m, tenant, drafts);
    LogStep(s.db, db, InsertApproval(run));
  }

  lemma ApprovalGrows(db: Store, run: RunId, tenant: string, drafts: ReplyDrafts)
    requires run !in db.approvals
    ensures Grows(db, SaveApproval(db, run, tenant, drafts))
  {
  }

  lemma NewApprovalOk(db: Store, m: string, tenant: string, drafts: ReplyDrafts)
    requires ApprovalsOk(db) && m in db.engagements
    requires Linked(db.engagements[m], RunFor(m), Approval(tenant, drafts.engagementId, "pending", drafts))
    ensures ApprovalsOk(SaveApproval(db, RunFor(m), tenant, drafts))
  {
  }

  /** Approvals survive a change of one engagement that has no approval yet. */
  lemma ApprovalsKept(a: Store, b: Store, m: string)
    requires ApprovalsOk(a) && b.approvals == a.approvals
    requires m in a.engagements ==> a.engagements[m].runId == NoRun
    requires forall n :: n in a.engagements && n != m ==> n in b.engagements && b.engagements[n] == a.engagements[n]
    ensures ApprovalsOk(b) && RunFor(m) !in a.approvals
  {
  }

  lemma AddEngagementInv(s: State, job: Job, reply: string)
    requires Inv(s) && job in s.jobs && job.draft.messageId !in s.db.engagements
    ensures var db := AddEngagement(s.db, job, reply); Inv(s.(db := db)) && Grows(s.db, db)
    ensures RunFor(job.draft.messageId) !in s.db.approvals
  {
    var m := job.draft.messageId;
    var db := AddEngagement(s.db, job, reply);
    assert Grows(s.db, db);
    ApprovalsKept(s.db, db, m);
    LogStep(s.db, db, InsertEngagement(m));
    NewEngagementOk(s.db, job, reply);
  }

  lemma NewEngagementOk(db: Store, job: Job, reply: string)
    requires EngagementsOk(db) && HasEvent(db.events, job.draft.messageId) && job.draft.content != ""
    ensures EngagementsOk(AddEngagement(db, job, reply))
  {
  }

  lemma FewerJobs(s: State, jobs: multiset<Job>)
    requires Inv(s) && jobs <= s.jobs
    ensures Inv(s.(jobs := jobs))
  {
  }

  lemma ResumeInv(s: State, job: Job, reply: string, crash: bool)
    requires Inv(s) && job in s.jobs
    ensures var t := ResumeJob(s, job, reply, crash); Inv(t) && Grows(s.db, t.db)
  {
    var rest := s.jobs - multiset{job};
    if job.draft.messageId in s.db.engagements {
      FewerJobs(s, rest);
    } else {
      AddEngagementInv(s, job, reply);
      var inserted := AddEngagement(s.db, job, reply);
      FewerJobs(s.(db := inserted), rest);
      if !crash {
        var drafts := DraftsOf(s.db.nextId, job.draft, reply);
        SaveApprovalInv(State(inserted, rest), job.draft.messageId, job.tenant, drafts);
      }
    }
  }

  lemma SetRunInv(s: State, m: string)
    requires Inv(s) && m in s.db.engagements && s.db.engagements[m].runId == NoRun
    ensures var db := SetEngagementRun(s.db, m, RunFor(m)); Inv(s.(db := db)) && Grows(s.db, db)
    ensures RunFor(m) !in s.db.approvals
  {
    var db := SetEngagementRun(s.db, m, RunFor(m));
    assert Grows(s.db, db);
    ApprovalsKept(s.db, db, m);
    LogStep(s.db, db, SetRun(m));
    assert EngagementsOk(db);
  }

  lemma SurvivorInv(s: State, key: EventKey, crash: bool)
    requires Inv(s) && key in s.db.events && s.db.events[key].reading.Ok?
    requires s.db.events[key].reading.value.messageId in s.db.engagements
    ensures var t := ReplayEvent(s, key, crash); Inv(t) && Grows(s.db, t.db)
  {
    var d := s.db.events[key].reading.value;
    var m := d.messageId;
    var e := s.db.engagements[m];
    var run := RunOf(e);
    assert run == RunFor(m);
    if e.runId == NoRun { SetRunInv(s, m); }
    var linked := if e.runId == NoRun then SetEngagementRun(s.db, m, run) else s.db;
    if !crash && run !in linked.approvals {
      SaveApprovalInv(s.(db := linked), m, s.db.events[key].tenant, RebuiltDrafts(e, d));
    }
  }

  lemma ReplayInv(s: State, key: EventKey, crash: bool)
    requires Inv(s) && key in s.db.events
    ensures var t := ReplayEvent(s, key, crash); Inv(t) && Grows(s.db, t.db)
  {
    var stored := s.db.events[key].reading;
    if stored.Ok? {
      var m := stored.value.messageId;
      if m in s.db.engagements {
        SurvivorInv(s, key, crash);
      } else {
        assert Identifies(s.db.events[key], m);
        StartQueueInv(s, Job(s.db.events[key].tenant, stored.value));
      }
    }
  }

  lemma DecisionInv(s: State, run: RunId, a: Approval)
    requires Inv(s) && run in s.db.approvals && Subject(a) == Subject(s.db.approvals[run])
    ensures Inv(SetApproval(s, run, a)) && Grows(s.db, SetApproval(s, run, a).db)
  {
    var t := SetApproval(s, run, a);
    forall r | r in t.db.approvals ensures HasEngagement(t.db, r) { SameSubject(s.db, t.db, run, r); }
    forall i | 0 <= i < |t.db.log| ensures Witnessed(t.db, t.db.log[i]) { assert Witnessed(s.db, s.db.log[i]); }
  }

  lemma MarksInv(s: State, run: RunId, status: string)
    requires Inv(s)
    ensures Inv(Apply(s, OwnerMarks(run, status))) && Grows(s.db, Apply(s, OwnerMarks(run, status)).db)
  {
    if run in s.db.approvals { DecisionInv(s, run, s.db.approvals[run].(status := status)); } else { GrowsSelf(s.db); }
  }

  /** The engagement that an approval's drafts name is the one it is linked with. */
  lemma NamedEngagement(db: Store, run: RunId, m: string)
    requires EngagementsOk(db) && ApprovalsOk(db) && run in db.approvals && m in db.engagements
    ensures run.RunFor? && run.messageId in db.engagements
    ensures db.engagements[m].id == db.approvals[run].drafts.engagementId <==> run == RunFor(m)
    ensures db.engagements[run.messageId].runId == run
  {
    assert HasEngagement(db, run);
  }

  /** The rewritten engagement keeps its link and its question. */
  lemma AnswerInv(s: State, run: RunId, reply: string)
    requires Inv(s) && run in s.db.approvals
    ensures var db := AnswerEngagement(s.db, s.db.approvals[run].drafts.engagementId, reply, run);
            Inv(s.(db := db)) && Grows(s.db, db)
  {
    var t := s.(db := AnswerEngagement(s.db, s.db.approvals[run].drafts.engagementId, reply, run));
    forall m | m in s.db.engagements ensures SameLink(s.db.engagements[m], t.db.engagements[m]) {
      NamedEngagement(s.db, run, m);
    }
    SameLinksOk(s.db, t.db);
    forall i | 0 <= i < |t.db.log| ensures Witnessed(t.db, t.db.log[i]) { assert Witnessed(s.db, s.db.log[i]); }
  }

  predicate SameLink(e: Engagement, f: Engagement) { Question(e) == Question(f) && e.runId == f.runId }

  lemma SameLinksOk(a: Store, b: Store)
    requires EngagementsOk(a) && ApprovalsOk(a) && b.events == a.events && b.approvals == a.approvals
    requires b.nextId == a.nextId && b.log == a.log && b.engagements.Keys == a.engagements.Keys
    requires forall m :: m in a.engagements ==> SameLink(a.engagements[m], b.engagements[m])
    ensures EngagementsOk(b) && ApprovalsOk(b) && Grows(a, b)
  {
    forall m | m in a.engagements
      ensures var e, f := a.engagements[m], b.engagements[m]; e.id == f.id && e.draft == f.draft && e.runId == f.runId
    {
      SameQuestion(a.engagements[m], b.engagements[m]);
    }
    forall run | run in b.approvals ensures HasEngagement(b, run) {
      assert HasEngagement(a, run);
      var m :| m in a.engagements && run == RunFor(m) && Linked(a.engagements[m], run, a.approvals[run]);
      assert Linked(b.engagements[m], run, b.approvals[run]);
    }
  }

  lemma SameQuestion(e: Engagement, f: Engagement)
    requires Question(e) == Question(f)
    ensures e.id == f.id && e.tenant == f.tenant && e.draft == f.draft
  {
    assert Question(e).id == e.id && Question(f).id == f.id;
    assert Question(e).tenant == e.tenant && Question(f).tenant == f.tenant;
    assert Question(e).draft == e.draft && Question(f).draft == f.draft;
  }

  lemma ApprovesInv(s: State, run: RunId, delivered: bool, reply: string, crash: bool)
    requires Inv(s)
    ensures var t := Apply(s, OwnerApproves(run, delivered, reply, crash)); Inv(t) && Grows(s.db, t.db)
  {
    if run in s.db.approvals && HasId(s.db, s.db.approvals[run].drafts.engagementId) {
      var a := s.db.approvals[run].(status := if delivered then "published" else "delivery_failed");
      var decided := SetApproval(s, run, a);
      DecisionInv(s, run, a);
      if !crash {
        AnswerInv(decided, run, reply);
        GrowsTransitive(s.db, decided.db, Apply(s, OwnerApproves(run, delivered, reply, crash)).db);
      }
    } else {
      GrowsSelf(s.db);
    }
  }

  lemma EditsInv(s: State, run: RunId, reply: string)
    requires Inv(s)
    ensures Inv(Apply(s, OwnerEdits(run, reply))) && Grows(s.db, Apply(s, OwnerEdits(run, reply)).db)
  {
    if run in s.db.approvals {
      var a := s.db.approvals[run];
      DecisionInv(s, run, a.(status := "pending", drafts := a.drafts.(replyDraft := reply)));
    } else {
      GrowsSelf(s.db);
    }
  }

  lemma GrowsSelf(db: Store)
    ensures Grows(db, db)
  {
  }

  lemma SameSubject(a: Store, b: Store, run: RunId, r: RunId)
    requires b.engagements == a.engagements && run in a.approvals && b.approvals.Keys == a.approvals.Keys
    requires forall k :: k in a.approvals ==> Subject(b.approvals[k]) == Subject(a.approvals[k])
    requires r in a.approvals && HasEngagement(a, r)
    ensures HasEngagement(b, r)
  {
    var m :| m in a.engagements && r == RunFor(m) && Linked(a.engagements[m], r, a.approvals[r]);
    SubjectLinks(a.engagements[m], r, a.approvals[r], b.approvals[r]);
  }

  lemma SubjectLinks(e: Engagement, r: RunId, a: Approval, b: Approval)
    requires Linked(e, r, a) && Subject(a) == Subject(b)
    ensures Linked(e, r, b)
  {
    assert Subject(a).drafts.engagementId == a.drafts.engagementId;
    assert Subject(b).drafts.incomingText == b.drafts.incomingText;
    assert Subject(a).taskId == a.taskId && Subject(b).drafts.engagementType == b.drafts.engagementType;
  }

  lemma RecordInv(s: State, key: EventKey, e: Stored)
    requires Inv(s)
    ensures Inv(Apply(s, RecordOther(key, e))) && Grows(s.db, Apply(s, RecordOther(key, e)).db)
  {
    GrowsSelf(s.db);
    if key !in s.db.events { EventInv(s, key, e); }
  }

  lemma LostJobsInv(s: State, jobs: multiset<Job>)
    requires Inv(s) && jobs <= s.jobs
    ensures Inv(s.(jobs := jobs)) && Grows(s.db, s.db)
  {
    GrowsSelf(s.db);
    FewerJobs(s, jobs);
  }

  lemma StepInv(s: State, step: Step)
    requires Inv(s)
    ensures Inv(Apply(s, step)) && Grows(s.db, Apply(s, step).db)
  {
    match step
    case Ingest(pageId, item, crash) => IngestInv(s, pageId, item, crash);
    case Replay(key, crash) => if key in s.db.events { ReplayInv(s, key, crash); }
    case Resume(job, reply, crash) => if job in s.jobs { ResumeInv(s, job, reply, crash); }
    case OwnerRejects(_) => GrowsSelf(s.db);
    case OwnerMarks(run, status) => MarksInv(s, run, status);
    case OwnerApproves(run, delivered, reply, crash) => ApprovesInv(s, run, delivered, reply, crash);
    case OwnerEdits(run, reply) => EditsInv(s, run, reply);
    case RecordOther(key, e) => RecordInv(s, key, e);
    case DraftingFails(job) => LostJobsInv(s, s.jobs - multiset{job});
    case ProcessCrash => LostJobsInv(s, multiset{});
  }

  /** Exactly once: along every interleaving, with crashes anywhere, each event,
      engagement and approval is written at most once and no decided approval is
      reset; an approval has its engagement, an engagement its recorded event. */
  lemma {:induction false} RunInv(s: State, steps: seq<Step>)
    requires Inv(s)
    ensures Inv(Run(s, steps)) && Grows(s.db, Run(s, steps).db)
    decreases |steps|
  {
    if steps != [] {
      StepInv(s, steps[0]);
      RunInv(Apply(s, steps[0]), steps[1..]);
      GrowsTransitive(s.db, Apply(s, steps[0]).db, Run(s, steps).db);
    }
  }

  lemma GrowsTransitive(a: Store, b: Store, c: Store)
    requires Grows(a, b) && Grows(b, c)
    ensures Grows(a, c)
  {
  }

  // ── Every recorded Meta row is regular ──────────────────────────────────

  lemma StepEvents(s: State, step: Step)
    requires EventsOk(s.db)
    ensures EventsOk(Apply(s, step).db)
  {
    match step
    case Ingest(pageId, item, crash) => if Accepts(item.draft, pageId) { LiveRowRegular(item); }
    case _ =>
  }

  lemma LiveRowRegular(item: LiveItem)
    requires Usable(item.draft)
    ensures Regular(item.stored)
  {
  }

  lemma {:induction false} RunEvents(s: State, steps: seq<Step>)
    requires EventsOk(s.db)
    ensures EventsOk(Run(s, steps).db)
    decreases |steps|
  {
    if steps != [] {
      StepEvents(s, steps[0]);
      RunEvents(Apply(s, steps[0]), steps[1..]);
    }
  }
}
