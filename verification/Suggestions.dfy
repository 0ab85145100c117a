/** The life of a proactive suggestion under owner taps, expiry, reminders and the
    background auto-preparation task. A step is the code between two awaits on the one
    event loop; tasks hold a detached copy of the row across their await. */
module Suggestions {
  import opened Common

  datatype Status = Pending | Accepted | Sending | Sent | Reported | Dismissed | Expired

  datatype Kind = ContentGap | UnansweredReviews | StaleKnowledge | RecoverSleeping

  datatype Stamp = Stamp(at: int, actor: string)

  /** The keys of `result_snapshot_json` that carry the history of a row. */
  datatype Snapshot = Snapshot(
    accepted: Option<Stamp>, sending: Option<Stamp>, sent: Option<Stamp>, dismissed: Option<Stamp>,
    reported: Option<Stamp>, execution: Option<string>, reminded: Option<int>)

  /** A row of `kachu_suggestions`; `action` is `suggested_action`. */
  datatype Row = Row(
    tenant: string, kind: Kind, action: string, draft: string, status: Status, runId: string,
    expiresAt: int, snapshot: Snapshot)

  /** The idempotency key of a dispatch is a digest of these three texts. */
  datatype TaskKey = TaskKey(tenant: string, intent: string, text: string)

  /** What happened to a suggestion, independent of what its row says: owner-driven
      executions, both clock reads of every reminder stamped on it, the pushes that
      carried its card, dispatched keys, expiry. A push is named by the row it was
      queued for and the number of that row's reminder. */
  datatype History = History(
    executions: nat, reminders: seq<(int, int)>, cards: seq<(nat, nat)>, keys: set<TaskKey>, expired: bool)

  datatype Entry = Entry(row: Row, hist: History)

  /** Suspended coroutines. `Preparing` and `Executing` wait for a dispatch. `Pushing` was
      queued for reminder number `nth` of row `id` and sends the card of row `shown`. */
  datatype Task =
    | PrepQueued(id: nat)
    | Pushing(id: nat, nth: nat, shown: nat)
    | Preparing(id: nat, copy: Row)
    | Executing(id: nat, copy: Row, actor: string)

  datatype State = State(table: map<nat, Entry>, tasks: set<Task>, clock: int)

  /** How `save_suggestion` writes a detached copy. The repository merges it into a new
      session, which copies every column (WholeRow). ChangedColumn is the alternative
      of writing only the run id that the caller changed. */
  datatype Merge = WholeRow | ChangedColumn

  const NO_HISTORY := History(0, [], [], {}, false)
  const EMPTY_SNAPSHOT := Snapshot(None, None, None, None, None, None, None)
  const SYSTEM := "system:auto_proactive"
  const DAY := 86400
  const HALF_DAY := 43200

  predicate Open(s: Status) { s == Pending || s == Accepted }

  predicate UsesAgentOS(kind: Kind) { kind == ContentGap || kind == UnansweredReviews }

  function ActionText(kind: Kind): string {
    match kind
    case ContentGap => "發一篇本週 Google 商家動態"
    case UnansweredReviews => "起草並回覆未處理負評"
    case StaleKnowledge => "更新目前的店家知識與主打資訊"
    case RecoverSleeping => "發送一則好久不見喚回訊息"
  }

  function DraftText(kind: Kind): string {
    match kind
    case ContentGap => "本週新消息已準備好，歡迎回來看看我們這次的新亮點。"
    case UnansweredReviews => "謝謝你的回饋，我們已注意到這次體驗不如預期，會立即改善。"
    case StaleKnowledge => "最近店裡有一些新變化，我可以先幫你整理成最新版品牌資料，之後產出的內容會更準。"
    case RecoverSleeping => "好久不見，最近店裡準備了新的內容，想邀請你有空再回來看看。"
  }

  function IntentOf(kind: Kind): string {
    if kind == UnansweredReviews then "review_reply" else "google_post"
  }

  function KeyOf(r: Row): TaskKey { TaskKey(r.tenant, IntentOf(r.kind), r.action) }

  // ── What one segment does to one row ────────────────────────────────────

  /** `draft_message.strip() or suggestion.draft_message` */
  function EditedDraft(r: Row, draft: Option<string>): string {
    if draft.Some? && Strip(draft.value) != "" then Strip(draft.value) else r.draft
  }

  /** The first write of an accept or a send: the owner's draft. */
  function EditRow(r: Row, draft: Option<string>): Row { r.(draft := EditedDraft(r, draft)) }

  function AcceptRow(r: Row, now: int, actor: string, draft: Option<string>): Row {
    EditRow(r, draft).(status := Accepted, snapshot := r.snapshot.(accepted := Some(Stamp(now, actor))))
  }

  function DismissRow(r: Row, now: int, actor: string): Row {
    r.(status := Dismissed, snapshot := r.snapshot.(dismissed := Some(Stamp(now, actor))))
  }

  /** An existing acceptance stamp is kept, a missing one added. */
  function AcceptedStamp(r: Row, now: int, actor: string): Option<Stamp> {
    if r.snapshot.accepted.Some? then r.snapshot.accepted else Some(Stamp(now, actor))
  }

  /** The second write of a send, for a pending row only. */
  function SendAcceptRow(r: Row, now: int, actor: string, draft: Option<string>): Row {
    if r.status != Pending then EditRow(r, draft)
    else EditRow(r, draft).(status := Accepted, snapshot := r.snapshot.(accepted := AcceptedStamp(r, now, actor)))
  }

  /** The last write of a send. */
  function SendingRow(r: Row, now: int, actor: string, draft: Option<string>): Row {
    EditRow(r, draft).(status := Sending,
      snapshot := r.snapshot.(accepted := AcceptedStamp(r, now, actor), sending := Some(Stamp(now, actor))))
  }

  function SentSnapshot(s: Snapshot, run: string, now: int, actor: string): Snapshot {
    s.(execution := Some(run), sent := Some(Stamp(now, actor)))
  }

  function PreparedSnapshot(s: Snapshot, run: string, now: int): Snapshot {
    var stamp := Some(Stamp(now, SYSTEM));
    s.(accepted := stamp, sending := stamp, sent := stamp, execution := Some(run))
  }

  function SaveRun(mode: Merge, current: Row, copy: Row, run: string): Row {
    match mode
    case WholeRow => copy.(runId := run)
    case ChangedColumn => current.(runId := run)
  }

  /** After the owner's execution returned: save the run id, then sending -> sent.
      `torn` ends between the two writes. */
  function FinishedRow(mode: Merge, current: Row, copy: Row, run: string, now: int, actor: string, torn: bool): Row {
    var saved := if UsesAgentOS(copy.kind) then SaveRun(mode, current, copy, run) else current;
    if saved.status == Sending && !torn then
      saved.(status := Sent, snapshot := SentSnapshot(copy.snapshot, run, now, actor))
    else saved
  }

  /** After the background dispatch returned: save the run id, then pending -> sent.
      `torn` ends between the two writes. */
  function PreparedRow(mode: Merge, current: Row, copy: Row, run: string, now: int, torn: bool): Row {
    var saved := SaveRun(mode, current, copy, run);
    if saved.status == Pending && !torn
    then saved.(status := Sent, snapshot := PreparedSnapshot(saved.snapshot, run, now))
    else saved
  }

  function ReportedRow(r: Row, now: int, actor: string): Row {
    r.(status := Reported, snapshot := r.snapshot.(reported := Some(Stamp(now, actor))))
  }

  predicate Overdue(r: Row, tenant: string, now: int) {
    r.tenant == tenant && Open(r.status) && r.expiresAt < now
  }

  function ExpireRow(r: Row, tenant: string, now: int): Row {
    if Overdue(r, tenant, now) then r.(status := Expired) else r
  }

  predicate Listed(r: Row, tenant: string) { r.tenant == tenant && Open(r.status) }

  predicate ReminderDue(r: Row, tenant: string, now: int) {
    Listed(r, tenant) && now >= r.expiresAt - HALF_DAY && r.snapshot.reminded.None?
  }

  function RemindRow(r: Row, tenant: string, now: int): Row {
    if ReminderDue(r, tenant, now) then r.(snapshot := r.snapshot.(reminded := Some(now))) else r
  }

  predicate Active(r: Row, tenant: string, kind: Kind, now: int) {
    r.tenant == tenant && r.kind == kind && Open(r.status) && r.expiresAt >= now
  }

  // ── Steps ───────────────────────────────────────────────────────────────

  /** How far a send gets: through all its writes, or up to a crash. */
  datatype Cut = Through | AfterDraft | AfterAccept

  /** `torn` is a crash after the first of two writes; `missed` are the rows that a crash
      kept a reminder loop from reaching. `last` is the row that the loop's listing names
      last. A push may fail (`ok` is false). */
  datatype Step =
    | Scan(tenant: string, nudge: Option<Kind>, id: nat, prepare: bool, at: int, later: int)
    | StartPrep(id: nat)
    | FinishPrep(task: Task, run: Option<string>, at: int, torn: bool)
    | Accept(id: nat, actor: string, draft: Option<string>, at: int, torn: bool)
    | Dismiss(id: nat, actor: string, at: int)
    | Send(id: nat, actor: string, draft: Option<string>, at: int, cut: Cut)
    | FinishSend(task: Task, run: Option<string>, at: int, torn: bool)
    | Report(id: nat, actor: string, at: int)
    | Remind(tenant: string, last: nat, at: int, later: int, missed: set<nat>)
    | Push(task: Task, ok: bool)
    | ProcessRestart

  /** The clock reads of a step never run backward. */
  predicate Timely(s: State, step: Step) {
    match step
    case Scan(_, _, _, _, at, later) => s.clock <= at <= later
    case Remind(_, _, at, later, _) => s.clock <= at <= later
    case Push(_, _) => true
    case StartPrep(_) => true
    case ProcessRestart => true
    case _ => s.clock <= step.at
  }

  function ExpireEntry(e: Entry, tenant: string, now: int): Entry {
    if Overdue(e.row, tenant, now) then Entry(ExpireRow(e.row, tenant, now), e.hist.(expired := true)) else e
  }

  function RemindEntry(e: Entry, tenant: string, at: int, later: int): Entry {
    if ReminderDue(e.row, tenant, later)
    then Entry(RemindRow(e.row, tenant, later), e.hist.(reminders := e.hist.reminders + [(at, later)])) else e
  }

  function SendEntry(e: Entry, actor: string, draft: Option<string>, now: int): Entry {
    var keys := e.hist.keys + if UsesAgentOS(e.row.kind) then {KeyOf(e.row)} else {};
    Entry(SendingRow(e.row, now, actor, draft), e.hist.(executions := e.hist.executions + 1, keys := keys))
  }

  function StartPrepEntry(e: Entry): Entry {
    e.(hist := e.hist.(keys := e.hist.keys + {KeyOf(e.row)}))
  }

  function ExpireAll(s: State, tenant: string, now: int): State {
    s.(table := map id | id in s.table :: ExpireEntry(s.table[id], tenant, now), clock := now)
  }

  /** `list_pending_suggestions` lists the newest row first, so it ends with an oldest open
      one. A row is created DAY before it expires. */
  predicate ListedLast(table: map<nat, Entry>, tenant: string, last: nat) {
    && last in table && Listed(table[last].row, tenant)
    && forall id :: id in table && Listed(table[id].row, tenant) ==>
         table[last].row.expiresAt <= table[id].row.expiresAt
  }

  predicate NoneListed(table: map<nat, Entry>, tenant: string) {
    forall id :: id in table ==> !Listed(table[id].row, tenant)
  }

  function DueIds(table: map<nat, Entry>, tenant: string, now: int): set<nat> {
    set id | id in table && ReminderDue(table[id].row, tenant, now)
  }

  /** The pushes that a reminder loop queues, one for each due row. They run after the
      loop and read its variable then: each sends the card of the last listed row. */
  function Pushes(table: map<nat, Entry>, tenant: string, now: int, last: nat): set<Task> {
    set id | id in DueIds(table, tenant, now) :: Pushing(id, |table[id].hist.reminders|, last)
  }

  function RemindAll(s: State, tenant: string, at: int, later: int, missed: set<nat>): map<nat, Entry> {
    map id | id in s.table ::
      if id in missed then s.table[id] else RemindEntry(s.table[id], tenant, at, later)
  }

  /** Expire what is due, then stamp the due rows. The pushes of a loop that a crash cuts
      short are lost with it. */
  function RemindStep(s: State, tenant: string, last: nat, at: int, later: int, missed: set<nat>): State {
    var e := ExpireAll(s, tenant, at);
    if !NoneListed(e.table, tenant) && !ListedLast(e.table, tenant, last) then s
    else
      e.(table := RemindAll(e, tenant, at, later, missed), clock := later,
         tasks := e.tasks + if missed == {} then Pushes(e.table, tenant, later, last) else {})
  }

  function ShowEntry(e: Entry, task: Task): Entry
    requires task.Pushing?
  {
    e.(hist := e.hist.(cards := e.hist.cards + [(task.id, task.nth)]))
  }

  /** A queued push goes out, or fails. */
  function PushStep(s: State, task: Task, ok: bool): State
    requires task.Pushing?
  {
    var t := s.(tasks := s.tasks - {task});
    if ok && task.shown in s.table then t.(table := s.table[task.shown := ShowEntry(s.table[task.shown], task)]) else t
  }

  function NewRow(tenant: string, kind: Kind, now: int): Row {
    Row(tenant, kind, ActionText(kind), DraftText(kind), Pending, "", now + DAY, EMPTY_SNAPSHOT)
  }

  function SetRow(s: State, id: nat, r: Row): map<nat, Entry>
    requires id in s.table
  {
    s.table[id := s.table[id].(row := r)]
  }

  ghost predicate HasActive(s: State, tenant: string, kind: Kind, now: int) {
    exists id :: id in s.table && Active(s.table[id].row, tenant, kind, now)
  }

  function Create(s: State, tenant: string, kind: Kind, id: nat, prepare: bool): State {
    s.(table := s.table[id := Entry(NewRow(tenant, kind, s.clock), NO_HISTORY)],
       tasks := if kind == ContentGap && prepare then s.tasks + {PrepQueued(id)} else s.tasks)
  }

  /** A scan expires what is due, then creates a suggestion unless one of the same
      type is still active. `id` is the new row's id; a used id creates nothing. */
  ghost function ScanStep(
      s: State, tenant: string, nudge: Option<Kind>, id: nat, prepare: bool, at: int, later: int): State
  {
    var e := ExpireAll(s, tenant, at).(clock := later);
    if nudge.None? || id in e.table || HasActive(e, tenant, nudge.value, later) then e
    else Create(e, tenant, nudge.value, id, prepare)
  }

  /** An unsupported type raises right after the row became `sending`. */
  function SendStep(s: State, id: nat, actor: string, draft: Option<string>): State
    requires id in s.table
  {
    var e := SendEntry(s.table[id], actor, draft, s.clock);
    s.(table := s.table[id := e],
       tasks := if e.row.kind == StaleKnowledge then s.tasks else s.tasks + {Executing(id, e.row, actor)})
  }

  /** The background task reads its row and dispatches if it is still pending. */
  function StartPrepStep(s: State, id: nat): State {
    var t := s.(tasks := s.tasks - {PrepQueued(id)});
    if id !in s.table || s.table[id].row.status != Pending then t
    else t.(tasks := t.tasks + {Preparing(id, s.table[id].row)}, table := s.table[id := StartPrepEntry(s.table[id])])
  }

  /** The dispatch returned a run, or raised (None). */
  function FinishPrepStep(mode: Merge, s: State, task: Task, run: Option<string>, torn: bool): State
    requires task.Preparing?
  {
    var t := s.(tasks := s.tasks - {task});
    if run.None? || task.id !in s.table then t
    else
      var row := PreparedRow(mode, s.table[task.id].row, task.copy, run.value, s.clock, torn);
      t.(table := SetRow(t, task.id, row))
  }

  function FinishSendStep(mode: Merge, s: State, task: Task, run: Option<string>, torn: bool): State
    requires task.Executing?
  {
    var t := s.(tasks := s.tasks - {task});
    if run.None? || task.id !in s.table then t
    else
      var row := FinishedRow(mode, s.table[task.id].row, task.copy, run.value, s.clock, task.actor, torn);
      t.(table := SetRow(t, task.id, row))
  }

  predicate OpenAt(s: State, id: nat) { id in s.table && Open(s.table[id].row.status) }

  predicate ByOwner(step: Step) { step.Accept? || step.Dismiss? || step.Send? || step.Report? }

  /** One owner request on one suggestion; a failed guard answers 404 or 409. */
  function OwnerStep(s: State, step: Step): State
    requires ByOwner(step)
  {
    match step
    case Accept(id, actor, draft, at, torn) =>
      if !OpenAt(s, id) then s
      else
        var r := s.table[id].row;
        s.(table := SetRow(s, id, if torn then EditRow(r, draft) else AcceptRow(r, at, actor, draft)))
    case Dismiss(id, actor, at) =>
      if OpenAt(s, id) then s.(table := SetRow(s, id, DismissRow(s.table[id].row, at, actor))) else s
    case Send(id, actor, draft, at, cut) =>
      if !OpenAt(s, id) then s
      else (match cut
            case Through => SendStep(s, id, actor, draft)
            case AfterDraft => s.(table := SetRow(s, id, EditRow(s.table[id].row, draft)))
            case AfterAccept => s.(table := SetRow(s, id, SendAcceptRow(s.table[id].row, at, actor, draft))))
    case Report(id, actor, at) =>
      if id in s.table && s.table[id].row.status in {Sent, Reported}
      then s.(table := SetRow(s, id, ReportedRow(s.table[id].row, at, actor))) else s
  }

  ghost function Apply(mode: Merge, s: State, step: Step): State {
    match step
    case Scan(tenant, nudge, id, prepare, at, later) => ScanStep(s, tenant, nudge, id, prepare, at, later)
    case StartPrep(id) => if PrepQueued(id) in s.tasks then StartPrepStep(s, id) else s
    case FinishPrep(task, run, at, torn) =>
      if task in s.tasks && task.Preparing? then FinishPrepStep(mode, s.(clock := at), task, run, torn) else s
    case FinishSend(task, run, at, torn) =>
      if task in s.tasks && task.Executing? then FinishSendStep(mode, s.(clock := at), task, run, torn) else s
    case Remind(tenant, last, at, later, missed) => RemindStep(s, tenant, last, at, later, missed)
    case Push(task, ok) => if task in s.tasks && task.Pushing? then PushStep(s, task, ok) else s
    case ProcessRestart => s.(tasks := {})
    case _ => OwnerStep(s.(clock := step.at), step)
  }

  ghost function Run(mode: Merge, s: State, steps: seq<Step>): State
    decreases |steps|
  {
    if steps == [] then s else Run(mode, Apply(mode, s, steps[0]), steps[1..])
  }

  ghost predicate TimelyRun(mode: Merge, s: State, steps: seq<Step>)
    decreases |steps|
  {
    steps != [] ==> Timely(s, steps[0]) && TimelyRun(mode, Apply(mode, s, steps[0]), steps[1..])
  }
}
