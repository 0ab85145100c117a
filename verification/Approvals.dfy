/** Approvals are decided in AgentOS and mirrored in a local row. Owner taps, the
    scheduled publisher, the sync pass, AgentOS itself and other local writers
    interleave; every remote call may fail, and its reply may be lost. */
module Approvals {
  import opened Common

  datatype Decision = Approved | Rejected

  /** Workflows that AgentOS runs, and the two that are approved locally only. */
  datatype Workflow = Backed(name: string) | PlannedContent | MetaReply

  datatype Status =
    | Pending | Editing | ScheduleRequested | ScheduleConfirmation | Scheduled
    | Decided(decision: Decision) | Published | DeliveryFailed

  datatype Row = Row(workflow: Workflow, status: Status)

  /** The approvals of one run in creation order, as AgentOS lists them. */
  type View = seq<Option<Decision>>

  /** One approval: its run and its position. */
  datatype Id = Id(run: string, index: nat)

  /** Coroutines suspended in a remote call that has not been answered yet. */
  datatype Task =
    | Fetching(run: string, decision: Decision)
    | Deciding(id: Id, decision: Decision)
    | Viewing(run: string)
    | Viewed(run: string, view: View)

  /** `replies` are decisions that AgentOS took for a caller who has yet to hear;
      `written` lists the approvals whose decision the bridge wrote to its row. */
  datatype State = State(
    remote: map<string, View>, local: map<string, Row>,
    tasks: multiset<Task>, replies: map<Id, Decision>, written: seq<Id>)

  datatype Step =
    | AgentRequests(run: string)
    | AgentDecides(id: Id, decision: Decision)
    | Tap(run: string, decision: Decision)
    | FetchReturns(run: string, decision: Decision)
    | DecideArrives(id: Id, decision: Decision, replyLost: bool)
    | ReplyArrives(id: Id)
    | SyncStarts(run: string)
    | ViewReturns(run: string)
    | SyncWrites(run: string, view: View)
    | CallFails(task: Task)
    | ReplyLost(id: Id)
    | Restart
    | Notify(run: string, workflow: Workflow)
    | OtherWrite(run: string, status: Status)

  /** The last approved or rejected entry. */
  function LastDecision(view: View): Option<Decision>
    decreases |view|
  {
    if view == [] then None
    else if view[|view| - 1].Some? then view[|view| - 1]
    else LastDecision(view[..|view| - 1])
  }

  predicate OpenAt(remote: map<string, View>, id: Id) {
    id.run in remote && id.index < |remote[id.run]| && remote[id.run][id.index].None?
  }

  predicate DecidedAt(remote: map<string, View>, id: Id, d: Decision) {
    id.run in remote && id.index < |remote[id.run]| && remote[id.run][id.index] == Some(d)
  }

  function Decide(remote: map<string, View>, id: Id, d: Decision): map<string, View>
    requires OpenAt(remote, id)
  {
    remote[id.run := remote[id.run][id.index := Some(d)]]
  }

  function Without(s: State, task: Task): State {
    s.(tasks := s.tasks - multiset{task})
  }

  function With(s: State, task: Task): State {
    s.(tasks := s.tasks + multiset{task})
  }

  function Views(s: State, run: string): View {
    if run in s.remote then s.remote[run] else []
  }

  /** `decide_pending_approval`: no guard on the current status, nothing on a missing row. */
  function WriteDecision(local: map<string, Row>, run: string, d: Decision): map<string, Row> {
    if run in local then local[run := local[run].(status := Decided(d))] else local
  }

  /** A remote call or its reply is dropped by CallFails and ReplyLost; AgentOS decides
      an approval once and refuses a second decision. */
  function Apply(s: State, step: Step): State {
    match step
    case AgentRequests(run) => s.(remote := s.remote[run := Views(s, run) + [None]])
    case AgentDecides(id, d) => if OpenAt(s.remote, id) then s.(remote := Decide(s.remote, id, d)) else s
    case Tap(run, d) => With(s, Fetching(run, d))
    case FetchReturns(run, d) =>
      if Fetching(run, d) !in s.tasks then s
      else (match FirstNone(Views(s, run))
            case None => Without(s, Fetching(run, d))
            case Some(i) => With(Without(s, Fetching(run, d)), Deciding(Id(run, i), d)))
    case DecideArrives(id, d, lost) =>
      if Deciding(id, d) !in s.tasks then s
      else if !OpenAt(s.remote, id) then Without(s, Deciding(id, d))
      else Without(s, Deciding(id, d)).(remote := Decide(s.remote, id, d),
                                        replies := if lost then s.replies else s.replies[id := d])
    case ReplyArrives(id) =>
      if id !in s.replies then s
      else s.(local := WriteDecision(s.local, id.run, s.replies[id]),
              replies := s.replies - {id}, written := s.written + [id])
    case SyncStarts(run) => With(s, Viewing(run))
    case ViewReturns(run) =>
      if Viewing(run) in s.tasks then With(Without(s, Viewing(run)), Viewed(run, Views(s, run))) else s
    case SyncWrites(run, view) =>
      if Viewed(run, view) !in s.tasks then s
      else (match LastDecision(view)
            case None => Without(s, Viewed(run, view))
            case Some(d) => Without(s, Viewed(run, view)).(local := WriteDecision(s.local, run, d)))
    case CallFails(task) => Without(s, task)
    case ReplyLost(id) => s.(replies := s.replies - {id})
    case Restart => s.(tasks := multiset{}, replies := map[])
    case Notify(run, workflow) => s.(local := s.local[run := Row(workflow, Pending)])
    case OtherWrite(run, status) =>
      if run in s.local && (status.Decided? ==> !s.local[run].workflow.Backed?)
      then s.(local := s.local[run := s.local[run].(status := status)]) else s
  }

  function Run(s: State, steps: seq<Step>): State
    decreases |steps|
  {
    if steps == [] then s else Run(Apply(s, steps[0]), steps[1..])
  }

  // ── What a step does ────────────────────────────────────────────────────

  /** AgentOS says so last: the entry is decided and no later one is. */
  predicate SaidLast(view: View, i: nat) {
    i < |view| && view[i].Some? && forall j :: i < j < |view| ==> view[j].None?
  }

  predicate NothingSaid(view: View) { forall i :: 0 <= i < |view| ==> view[i].None? }

  lemma {:induction false} LastDecisionIs(view: View)
    ensures forall i: nat :: SaidLast(view, i) ==> LastDecision(view) == view[i]
    ensures LastDecision(view).None? <==> NothingSaid(view)
    decreases |view|
  {
    if view != [] && view[|view| - 1].None? {
      var init := view[..|view| - 1];
      LastDecisionIs(init);
      forall i: nat | SaidLast(view, i) ensures LastDecision(view) == view[i] { assert SaidLast(init, i); }
      assert LastDecision(view) == LastDecision(init);
      assert NothingSaid(init) ==> NothingSaid(view);
    }
  }

  /** One approval of a run is decided, and nothing else in AgentOS has changed. */
  predicate OneDecision(a: map<string, View>, b: map<string, View>, id: Id, d: Decision) {
    && id.run in a && id.index < |a[id.run]| && b.Keys == a.Keys
    && (forall r :: r in a && r != id.run ==> b[r] == a[r])
    && |b[id.run]| == |a[id.run]| && b[id.run][id.index] == Some(d)
    && forall j :: 0 <= j < |a[id.run]| && j != id.index ==> b[id.run][j] == a[id.run][j]
  }

  /** AgentOS asks once more, or decides an open approval; a decided one stays. */
  lemma AgentMoves(s: State, id: Id, d: Decision)
    ensures var t := Apply(s, AgentRequests(id.run));
            && t == s.(remote := t.remote) && t.remote.Keys == s.remote.Keys + {id.run}
            && t.remote[id.run] == (if id.run in s.remote then s.remote[id.run] else []) + [None]
            && forall r :: r in s.remote && r != id.run ==> t.remote[r] == s.remote[r]
    ensures id.run in s.remote && id.index < |s.remote[id.run]| ==>
      var t := Apply(s, AgentDecides(id, d));
      if s.remote[id.run][id.index].None? then t == s.(remote := t.remote) && OneDecision(s.remote, t.remote, id, d)
      else t == s
  {
  }

  /** A tap asks which approval is open, and goes on with the first one or ends. */
  lemma TapMoves(s: State, run: string, d: Decision)
    ensures Apply(s, Tap(run, d)) == s.(tasks := s.tasks + multiset{Fetching(run, d)})
    ensures Fetching(run, d) in s.tasks ==>
      var rest := s.tasks - multiset{Fetching(run, d)};
      var view := if run in s.remote then s.remote[run] else [];
      && ((forall i :: 0 <= i < |view| ==> view[i].Some?) ==> Apply(s, FetchReturns(run, d)) == s.(tasks := rest))
      && forall i: nat :: i < |view| && view[i].None? && (forall j :: 0 <= j < i ==> view[j].Some?) ==>
           Apply(s, FetchReturns(run, d)) == s.(tasks := rest + multiset{Deciding(Id(run, i), d)})
  {
  }

  /** A decision that arrives at an open approval decides it, whether or not its reply gets
      back; at a decided one it is refused. */
  lemma DecisionArrives(s: State, id: Id, d: Decision, lost: bool)
    requires Deciding(id, d) in s.tasks && id.run in s.remote && id.index < |s.remote[id.run]|
    ensures var t := Apply(s, DecideArrives(id, d, lost));
            && t == s.(remote := t.remote, tasks := s.tasks - multiset{Deciding(id, d)}, replies := t.replies)
            && (s.remote[id.run][id.index].None? ==>
                  && OneDecision(s.remote, t.remote, id, d)
                  && t.replies == if lost then s.replies else s.replies[id := d])
            && (s.remote[id.run][id.index].Some? ==> t.remote == s.remote && t.replies == s.replies)
  {
  }

  /** The row of a run, if it has one, gets that status; no other row changes. */
  predicate RowBecomes(a: map<string, Row>, b: map<string, Row>, run: string, status: Status) {
    && b.Keys == a.Keys && (forall r :: r in a && r != run ==> b[r] == a[r])
    && (run in a ==> b[run] == Row(a[run].workflow, status))
  }

  /** The reply that gets back writes the decision that was taken, once. */
  lemma ReplyWrites(s: State, id: Id)
    requires id in s.replies
    ensures var t := Apply(s, ReplyArrives(id));
            && RowBecomes(s.local, t.local, id.run, Decided(s.replies[id])) && t.written == s.written + [id]
            && t.replies == s.replies - {id} && t.remote == s.remote && t.tasks == s.tasks
  {
  }

  /** A sync call fetches the approvals as they are, and writes the decision that AgentOS
      says last in what was fetched, or nothing. */
  lemma SyncMoves(s: State, run: string, view: View)
    ensures Apply(s, SyncStarts(run)) == s.(tasks := s.tasks + multiset{Viewing(run)})
    ensures Viewing(run) in s.tasks ==>
      Apply(s, ViewReturns(run)) == s.(tasks := s.tasks - multiset{Viewing(run)} +
                                         multiset{Viewed(run, if run in s.remote then s.remote[run] else [])})
    ensures Viewed(run, view) in s.tasks ==>
      var t := Apply(s, SyncWrites(run, view));
      && t == s.(local := t.local, tasks := s.tasks - multiset{Viewed(run, view)})
      && (NothingSaid(view) ==> t.local == s.local)
      && forall i: nat :: SaidLast(view, i) ==> RowBecomes(s.local, t.local, run, Decided(view[i].value))
  {
    LastDecisionIs(view);
  }

  /** Answers that nobody waits for change nothing. */
  lemma StrayAnswers(s: State, run: string, d: Decision, id: Id, lost: bool, view: View)
    ensures Fetching(run, d) !in s.tasks ==> Apply(s, FetchReturns(run, d)) == s
    ensures Deciding(id, d) !in s.tasks ==> Apply(s, DecideArrives(id, d, lost)) == s
    ensures id !in s.replies ==> Apply(s, ReplyArrives(id)) == s
    ensures Viewing(run) !in s.tasks ==> Apply(s, ViewReturns(run)) == s
    ensures Viewed(run, view) !in s.tasks ==> Apply(s, SyncWrites(run, view)) == s
  {
  }

  /** Calls and replies get lost one at a time, a restart loses all of them. */
  lemma LossMoves(s: State, task: Task, id: Id)
    ensures Apply(s, CallFails(task)) == s.(tasks := s.tasks - multiset{task})
    ensures Apply(s, ReplyLost(id)) == s.(replies := s.replies - {id})
    ensures Apply(s, Restart) == s.(tasks := multiset{}, replies := map[])
  {
  }

  /** A notification puts a pending row in place; another writer changes the status of a row
      that is there, but decides only rows of workflows without AgentOS. */
  lemma LocalMoves(s: State, run: string, workflow: Workflow, status: Status)
    ensures Apply(s, Notify(run, workflow)) == s.(local := s.local[run := Row(workflow, Pending)])
    ensures var t := Apply(s, OtherWrite(run, status));
            && t == s.(local := t.local)
            && (run !in s.local || (status.Decided? && s.local[run].workflow.Backed?) ==> t.local == s.local)
            && (run in s.local && !(status.Decided? && s.local[run].workflow.Backed?) ==>
                  RowBecomes(s.local, t.local, run, status))
  {
  }

  // ── The invariant ───────────────────────────────────────────────────────

  /** AgentOS holds an approval of this run that was decided `d`. */
  ghost predicate Holds(remote: map<string, View>, run: string, d: Decision) {
    exists i: nat :: DecidedAt(remote, Id(run, i), d)
  }

  ghost predicate RowAgrees(remote: map<string, View>, run: string, row: Row) {
    row.workflow.Backed? && row.status.Decided? ==> Holds(remote, run, row.status.decision)
  }

  ghost predicate LocalAgrees(s: State) {
    forall run :: run in s.local ==> RowAgrees(s.remote, run, s.local[run])
  }

  /** What a view says is decided stays so in AgentOS. */
  predicate Faithful(remote: map<string, View>, task: Task) {
    task.Viewed? ==>
      forall i: nat, d :: i < |task.view| && task.view[i] == Some(d) ==> DecidedAt(remote, Id(task.run, i), d)
  }

  ghost predicate ViewsFaithful(s: State) {
    forall task :: task in s.tasks ==> Faithful(s.remote, task)
  }

  predicate RepliesTrue(s: State) {
    forall id :: id in s.replies ==> DecidedAt(s.remote, id, s.replies[id])
  }

  /** The bridge writes the decision of each approval at most once. */
  ghost predicate WrittenOnce(s: State) {
    && (forall i, j :: 0 <= i < j < |s.written| ==> s.written[i] != s.written[j])
    && (forall i :: 0 <= i < |s.written| ==> s.written[i] !in s.replies && !OpenAt(s.remote, s.written[i]))
    && (forall i :: 0 <= i < |s.written| ==>
          s.written[i].run in s.remote && s.written[i].index < |s.remote[s.written[i].run]|)
  }

  ghost predicate Inv(s: State) {
    LocalAgrees(s) && ViewsFaithful(s) && RepliesTrue(s) && WrittenOnce(s)
  }

  /** AgentOS only adds approvals and decides open ones. */
  ghost predicate Grows(a: map<string, View>, b: map<string, View>) {
    && (forall id, d :: DecidedAt(a, id, d) ==> DecidedAt(b, id, d))
    && (forall run :: run in a ==> run in b && |a[run]| <= |b[run]|)
  }

  lemma {:induction false} LastDecisionHeld(view: View)
    requires LastDecision(view).Some?
    ensures exists i: nat :: i < |view| && view[i] == LastDecision(view) && forall j :: i < j < |view| ==> view[j].None?
    decreases |view|
  {
    var last := |view| - 1;
    if view[last].Some? {
      assert view[last] == LastDecision(view);
    } else {
      LastDecisionHeld(view[..last]);
      var i: nat :|
        i < last && view[..last][i] == LastDecision(view) && forall j :: i < j < last ==> view[..last][j].None?;
      forall j | i < j < |view| ensures view[j].None? { if j < last { assert view[j] == view[..last][j]; } }
      assert view[i] == LastDecision(view);
    }
  }

  // ── AgentOS moves, the rest stays ───────────────────────────────────────

  lemma AgreesGrows(a: map<string, View>, b: map<string, View>, run: string, row: Row)
    requires Grows(a, b) && RowAgrees(a, run, row)
    ensures RowAgrees(b, run, row)
  {
  }

  lemma RemoteMoves(s: State, remote: map<string, View>)
    requires Inv(s) && Grows(s.remote, remote)
    ensures Inv(s.(remote := remote))
  {
    var t := s.(remote := remote);
    forall run | run in t.local ensures RowAgrees(remote, run, t.local[run]) {
      AgreesGrows(s.remote, remote, run, t.local[run]);
    }
    forall task | task in t.tasks ensures Faithful(remote, task) { assert Faithful(s.remote, task); }
    forall i | 0 <= i < |s.written|
      ensures !OpenAt(remote, s.written[i])
      ensures s.written[i].run in remote && s.written[i].index < |remote[s.written[i].run]|
    {
      var id := s.written[i];
      assert !OpenAt(s.remote, id) && DecidedAt(s.remote, id, s.remote[id.run][id.index].value);
    }
  }

  lemma DecideGrows(remote: map<string, View>, id: Id, d: Decision)
    requires OpenAt(remote, id)
    ensures Grows(remote, Decide(remote, id, d)) && DecidedAt(Decide(remote, id, d), id, d)
  {
  }

  lemma TasksChange(s: State, tasks: multiset<Task>)
    requires Inv(s)
    requires forall task :: task in tasks && task !in s.tasks ==> Faithful(s.remote, task)
    ensures Inv(s.(tasks := tasks))
  {
  }

  lemma WriteInv(s: State, run: string, d: Decision)
    requires Inv(s) && Holds(s.remote, run, d)
    ensures Inv(s.(local := WriteDecision(s.local, run, d)))
  {
  }

  lemma DecideArrivesInv(s: State, id: Id, d: Decision, lost: bool)
    requires Inv(s) && Deciding(id, d) in s.tasks && OpenAt(s.remote, id)
    ensures Inv(Apply(s, DecideArrives(id, d, lost))) && Grows(s.remote, Apply(s, DecideArrives(id, d, lost)).remote)
  {
    DecideGrows(s.remote, id, d);
    var moved := s.(remote := Decide(s.remote, id, d));
    RemoteMoves(s, moved.remote);
    var rest := Without(moved, Deciding(id, d));
    TasksChange(moved, rest.tasks);
    var t := Apply(s, DecideArrives(id, d, lost));
    assert t.remote == rest.remote && t.local == rest.local && t.tasks == rest.tasks;
  }

  lemma ReplyInv(s: State, id: Id)
    requires Inv(s) && id in s.replies
    ensures Inv(Apply(s, ReplyArrives(id)))
  {
  }

  lemma SyncWritesInv(s: State, run: string, view: View)
    requires Inv(s) && Viewed(run, view) in s.tasks
    ensures Inv(Apply(s, SyncWrites(run, view)))
  {
    assert Faithful(s.remote, Viewed(run, view));
    var rest := Without(s, Viewed(run, view));
    TasksChange(s, rest.tasks);
    if LastDecision(view).Some? {
      LastDecisionHeld(view);
      var d := LastDecision(view).value;
      var i: nat :| i < |view| && view[i] == Some(d);
      assert DecidedAt(s.remote, Id(run, i), d);
      WriteInv(rest, run, d);
    }
  }

  lemma LocalWriteInv(s: State, run: string, row: Row)
    requires Inv(s) && RowAgrees(s.remote, run, row)
    ensures Inv(s.(local := s.local[run := row]))
  {
  }

  predicate MovesRemote(step: Step) { step.AgentRequests? || step.AgentDecides? || step.DecideArrives? }

  predicate WritesRow(step: Step) { step.ReplyArrives? || step.SyncWrites? || step.Notify? || step.OtherWrite? }

  lemma RemoteStepInv(s: State, step: Step)
    requires Inv(s) && MovesRemote(step)
    ensures Inv(Apply(s, step)) && Grows(s.remote, Apply(s, step).remote)
  {
    match step
    case AgentRequests(run) => RemoteMoves(s, s.remote[run := Views(s, run) + [None]]);
    case AgentDecides(id, d) =>
      if OpenAt(s.remote, id) { DecideGrows(s.remote, id, d); RemoteMoves(s, Decide(s.remote, id, d)); }
    case DecideArrives(id, d, lost) =>
      if Deciding(id, d) in s.tasks {
        if OpenAt(s.remote, id) { DecideArrivesInv(s, id, d, lost); } else { TasksChange(s, Apply(s, step).tasks); }
      }
  }

  lemma RowStepInv(s: State, step: Step)
    requires Inv(s) && WritesRow(step)
    ensures Inv(Apply(s, step)) && Apply(s, step).remote == s.remote
  {
    match step
    case ReplyArrives(id) => if id in s.replies { ReplyInv(s, id); }
    case SyncWrites(run, view) => if Viewed(run, view) in s.tasks { SyncWritesInv(s, run, view); }
    case Notify(run, workflow) => LocalWriteInv(s, run, Row(workflow, Pending));
    case OtherWrite(run, status) =>
      if run in s.local && (status.Decided? ==> !s.local[run].workflow.Backed?) {
        LocalWriteInv(s, run, s.local[run].(status := status));
      }
  }

  lemma FewerReplies(s: State, replies: map<Id, Decision>)
    requires Inv(s) && forall id :: id in replies ==> id in s.replies && replies[id] == s.replies[id]
    ensures Inv(s.(replies := replies))
  {
  }

  lemma AddTask(s: State, task: Task)
    requires Inv(s) && Faithful(s.remote, task)
    ensures Inv(With(s, task))
  {
  }

  lemma DropTask(s: State, task: Task)
    requires Inv(s)
    ensures Inv(Without(s, task))
  {
  }

  lemma FetchInv(s: State, run: string, d: Decision)
    requires Inv(s)
    ensures Inv(Apply(s, FetchReturns(run, d)))
  {
    DropTask(s, Fetching(run, d));
    match FirstNone(Views(s, run))
    case None =>
    case Some(i) => AddTask(Without(s, Fetching(run, d)), Deciding(Id(run, i), d));
  }

  lemma ViewInv(s: State, run: string)
    requires Inv(s)
    ensures Inv(Apply(s, ViewReturns(run)))
  {
  }

  lemma LossInv(s: State, step: Step)
    requires Inv(s) && (step.CallFails? || step.ReplyLost? || step.Restart?)
    ensures Inv(Apply(s, step))
  {
    match step
    case CallFails(task) => DropTask(s, task);
    case ReplyLost(id) => FewerReplies(s, s.replies - {id});
    case Restart => FewerReplies(s, map[]); TasksChange(s.(replies := map[]), multiset{});
  }

  lemma TaskStepInv(s: State, step: Step)
    requires Inv(s) && (step.Tap? || step.FetchReturns? || step.SyncStarts? || step.ViewReturns?)
    ensures Inv(Apply(s, step))
  {
    match step
    case Tap(run, d) => AddTask(s, Fetching(run, d));
    case FetchReturns(run, d) => FetchInv(s, run, d);
    case SyncStarts(run) => AddTask(s, Viewing(run));
    case ViewReturns(run) => ViewInv(s, run);
  }

  lemma StepInv(s: State, step: Step)
    requires Inv(s)
    ensures Inv(Apply(s, step)) && Grows(s.remote, Apply(s, step).remote)
  {
    if MovesRemote(step) { RemoteStepInv(s, step); }
    else if WritesRow(step) { RowStepInv(s, step); }
    else if step.CallFails? || step.ReplyLost? || step.Restart? { LossInv(s, step); }
    else { TaskStepInv(s, step); }
  }

  lemma GrowsTransitive(a: map<string, View>, b: map<string, View>, c: map<string, View>)
    requires Grows(a, b) && Grows(b, c)
    ensures Grows(a, c)
  {
  }

  /** Under concurrent taps, lost replies, stale sync views and restarts: a local row of
      an AgentOS workflow that says approved or rejected has an AgentOS approval of its
      run decided that way, and the bridge writes each approval's decision at most once. */
  lemma {:induction false} RunInv(s: State, steps: seq<Step>)
    requires Inv(s)
    ensures Inv(Run(s, steps)) && Grows(s.remote, Run(s, steps).remote)
    decreases |steps|
  {
    if steps != [] {
      StepInv(s, steps[0]);
      RunInv(Apply(s, steps[0]), steps[1..]);
      GrowsTransitive(s.remote, Apply(s, steps[0]).remote, Run(s, steps).remote);
    }
  }

  const EMPTY := State(map[], map[], multiset{}, map[], [])

  lemma EveryRunAgrees(steps: seq<Step>, run: string, d: Decision)
    requires run in Run(EMPTY, steps).local && Run(EMPTY, steps).local[run].workflow.Backed?
    requires Run(EMPTY, steps).local[run].status == Decided(d)
    ensures Holds(Run(EMPTY, steps).remote, run, d)
  {
    RunInv(EMPTY, steps);
    assert RowAgrees(Run(EMPTY, steps).remote, run, Run(EMPTY, steps).local[run]);
  }

  /** A tap that nothing disturbs reaches both sides: the first open approval of the run
      is decided in AgentOS and the local row says the same. */
  lemma UndisturbedTap(s: State, run: string, d: Decision)
    requires run in s.local && run in s.remote && FirstNone(s.remote[run]).Some?
    ensures var id := Id(run, FirstNone(s.remote[run]).value);
            var asked := Apply(Apply(s, Tap(run, d)), FetchReturns(run, d));
            var t := Apply(Apply(asked, DecideArrives(id, d, false)), ReplyArrives(id));
            && DecidedAt(t.remote, id, d)
            && run in t.local && t.local[run] == s.local[run].(status := Decided(d))
            && t.written == s.written + [id]
  {
    var id := Id(run, FirstNone(s.remote[run]).value);
    var a := Apply(s, Tap(run, d));
    assert a == With(s, Fetching(run, d));
    var b := Apply(a, FetchReturns(run, d));
    assert b == With(Without(a, Fetching(run, d)), Deciding(id, d));
    assert OpenAt(b.remote, id);
    var c := Apply(b, DecideArrives(id, d, false));
    assert c.replies == s.replies[id := d] && c.local == s.local;
  }

  // ── What agreement does not promise ─────────────────────────────────────

  lemma {:induction false} RunAppend(s: State, a: seq<Step>, b: seq<Step>)
    ensures Run(s, a + b) == Run(Run(s, a), b)
    decreases |a|
  {
    if a == [] { assert a + b == b; } else {
      assert (a + b)[1..] == a[1..] + b;
      RunAppend(Apply(s, a[0]), a[1..], b);
    }
  }

  /** The step writes the status of the run's row: the bridge's reply in flight, a sync
      write of a view with a decision, a new notification, or another writer's change. */
  predicate WritesStatus(s: State, step: Step, run: string)
    requires run in s.local
  {
    match step
    case ReplyArrives(id) => id in s.replies && id.run == run
    case SyncWrites(r, view) => r == run && Viewed(r, view) in s.tasks && LastDecision(view).Some?
    case Notify(r, _) => r == run
    case OtherWrite(r, status) =>
      r == run && status != s.local[run].status && (status.Decided? ==> !s.local[run].workflow.Backed?)
    case _ => false
  }

  /** The outcome of a publication survives a step exactly if the step is none of these:
      nothing checks the status that is there before it is overwritten. */
  lemma OutcomeSurvivesExactly(s: State, step: Step, run: string)
    requires run in s.local && s.local[run].status in {Published, DeliveryFailed}
    ensures run in Apply(s, step).local
    ensures Apply(s, step).local[run].status == s.local[run].status <==> !WritesStatus(s, step, run)
  {
  }

  /** AgentOS publishes as soon as it is told; its callback can overtake the reply, and
      the late local write then hides the outcome of the publication. */
  lemma LateWriteHidesOutcome(s: State, id: Id, outcome: Status)
    requires id in s.replies && id.run in s.local && s.local[id.run].workflow.Backed? && !outcome.Decided?
    ensures var published := Apply(s, OtherWrite(id.run, outcome));
            && published.local == s.local[id.run := s.local[id.run].(status := outcome)]
            && Apply(published, ReplyArrives(id)).local ==
               s.local[id.run := s.local[id.run].(status := Decided(s.replies[id]))]
  {
  }

  // ── Views that grow old ─────────────────────────────────────────────────

  /** The position of the last decision. */
  function LastIndex(view: View): (i: nat)
    requires LastDecision(view).Some?
    ensures i < |view| && view[i] == LastDecision(view) && forall j :: i < j < |view| ==> view[j].None?
    decreases |view|
  {
    if view[|view| - 1].Some? then |view| - 1 else LastIndex(view[..|view| - 1])
  }

  lemma {:induction false} LastDecisionSplit(a: View, b: View)
    ensures LastDecision(a + b) == if LastDecision(b).Some? then LastDecision(b) else LastDecision(a)
    decreases |b|
  {
    if b == [] {
      assert a + b == a;
    } else {
      var k := |b| - 1;
      assert (a + b)[..|a + b| - 1] == a + b[..k] && (a + b)[|a + b| - 1] == b[k];
      LastDecisionSplit(a, b[..k]);
    }
  }

  /** The approvals of the run after the view's last decision. The view says that none of
      them is decided, so each decision among them was taken after the view. */
  function Later(s: State, run: string, view: View): View
    requires LastDecision(view).Some?
  {
    var now := Views(s, run);
    if LastIndex(view) + 1 <= |now| then now[LastIndex(view) + 1..] else []
  }

  /** A sync write leaves the row with AgentOS's last decision exactly if, of the later
      approvals, none was decided since the view was taken, or the last one the same way. */
  lemma SyncFreshness(s: State, run: string, view: View)
    requires Inv(s) && Viewed(run, view) in s.tasks && run in s.local && LastDecision(view).Some?
    ensures LastDecision(Views(s, run)).Some?
    ensures Apply(s, SyncWrites(run, view)).local[run].status == Decided(LastDecision(Views(s, run)).value) <==>
            LastDecision(Later(s, run, view)).None? || LastDecision(Later(s, run, view)) == LastDecision(view)
  {
    assert Faithful(s.remote, Viewed(run, view));
    assert DecidedAt(s.remote, Id(run, LastIndex(view)), LastDecision(view).value);
    DecisionNow(view, Views(s, run));
  }

  lemma DecisionNow(view: View, now: View)
    requires LastDecision(view).Some? && LastIndex(view) < |now| && now[LastIndex(view)] == LastDecision(view)
    ensures var later := now[LastIndex(view) + 1..];
            LastDecision(now) == if LastDecision(later).Some? then LastDecision(later) else LastDecision(view)
  {
    var i := LastIndex(view);
    assert now == now[..i] + [now[i]] + now[i + 1..];
    LastDecisionSplit(now[..i] + [now[i]], now[i + 1..]);
  }

  /** One run, its approvals, its local row and one suspended call. */
  function Scene(run: string, view: View, local: map<string, Row>, tasks: multiset<Task>): State {
    State(map[run := view], local, tasks, map[], [])
  }

  const YES: View := [Some(Approved)]
  const YES_THEN_NO: View := [Some(Approved), Some(Rejected)]

  lemma FirstAnswer(run: string)
    ensures Apply(Apply(EMPTY, AgentRequests(run)), AgentDecides(Id(run, 0), Approved)) ==
            Scene(run, YES, map[], multiset{})
  {
    var open: View := [None];
    assert [] + open == open && open[0 := Some(Approved)] == YES;
    assert Apply(EMPTY, AgentRequests(run)) == Scene(run, open, map[], multiset{});
  }

  lemma ViewTaken(run: string, row: Row)
    ensures var s := Apply(Scene(run, YES, map[], multiset{}), Notify(run, row.workflow));
            Apply(Apply(s, SyncStarts(run)), ViewReturns(run)) ==
            Scene(run, YES, map[run := Row(row.workflow, Pending)], multiset{Viewed(run, YES)})
  {
  }

  lemma SecondAnswer(run: string, local: map<string, Row>, tasks: multiset<Task>)
    ensures Apply(Apply(Scene(run, YES, local, tasks), AgentRequests(run)), AgentDecides(Id(run, 1), Rejected)) ==
            Scene(run, YES_THEN_NO, local, tasks)
  {
    var open: View := [Some(Approved), None];
    assert YES + [None] == open && open[1 := Some(Rejected)] == YES_THEN_NO;
    assert Apply(Scene(run, YES, local, tasks), AgentRequests(run)) == Scene(run, open, local, tasks);
  }

  /** A run that ends with an older decision: the view is fetched after one approval, the
      run then asks again and is rejected, and the stale view is written. */
  lemma StaleViewIsWritten(run: string, workflow: Workflow)
    ensures var s := Run(EMPTY, [AgentRequests(run), AgentDecides(Id(run, 0), Approved),
                                 Notify(run, workflow), SyncStarts(run)] +
                                [ViewReturns(run), AgentRequests(run),
                                 AgentDecides(Id(run, 1), Rejected), SyncWrites(run, YES)]);
            && s.local == map[run := Row(workflow, Decided(Approved))]
            && s.remote == map[run := YES_THEN_NO] && LastDecision(YES_THEN_NO) == Some(Rejected)
  {
    var a := [AgentRequests(run), AgentDecides(Id(run, 0), Approved), Notify(run, workflow), SyncStarts(run)];
    var b := [ViewReturns(run), AgentRequests(run), AgentDecides(Id(run, 1), Rejected), SyncWrites(run, YES)];
    FirstAnswer(run);
    ViewTaken(run, Row(workflow, Pending));
    SecondAnswer(run, map[run := Row(workflow, Pending)], multiset{Viewed(run, YES)});
    StaleWrite(run, workflow);
    RunFour(EMPTY, a[0], a[1], a[2], a[3]);
    RunFour(Run(EMPTY, a), b[0], b[1], b[2], b[3]);
    RunAppend(EMPTY, a, b);
  }

  lemma StaleWrite(run: string, workflow: Workflow)
    ensures var s := Scene(run, YES_THEN_NO, map[run := Row(workflow, Pending)], multiset{Viewed(run, YES)});
            Apply(s, SyncWrites(run, YES)) ==
            Scene(run, YES_THEN_NO, map[run := Row(workflow, Decided(Approved))], multiset{})
    ensures LastDecision(YES_THEN_NO) == Some(Rejected)
  {
  }

  lemma RunFour(s: State, a: Step, b: Step, c: Step, d: Step)
    ensures Run(s, [a, b, c, d]) == Apply(Apply(Apply(Apply(s, a), b), c), d)
  {
    var s1, s2, s3 := Apply(s, a), Apply(Apply(s, a), b), Apply(Apply(Apply(s, a), b), c);
    calc {
      Run(s, [a, b, c, d]);
      { assert [a, b, c, d][1..] == [b, c, d]; }
      Run(s1, [b, c, d]);
      { assert [b, c, d][1..] == [c, d]; }
      Run(s2, [c, d]);
      { assert [c, d][1..] == [d]; }
      Run(s3, [d]);
      { assert [d][1..] == []; }
      Run(Apply(s3, d), []);
    }
  }
}
