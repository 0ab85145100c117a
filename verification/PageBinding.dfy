/** Binding a tenant's Meta connector to a Facebook page: connection sessions, callbacks
    and page selections. The endpoints run in worker threads, so the check, the bind and
    the completion of one selection may interleave with other calls. */
module PageBinding {
  import opened Common

  datatype Status = Started | SelectingPage | AwaitingOverwrite | Completed | Failed | Expired

  /** A page id as stored in a candidate list: already trimmed, possibly blank. */
  type PageId = s: string | Trimmed(s)

  datatype Session = Session(tenant: string, status: Status, candidates: seq<PageId>, selected: PageId, expiresAt: int)

  /** A selection between its store accesses. `seen` is the bound page it read. */
  datatype Task =
    | Checked(session: nat, tenant: string, page: PageId, overwrite: bool, seen: Option<PageId>)
    | Bound(session: nat, tenant: string, page: PageId)

  /** `connectors` holds the active Meta connector of a tenant; `offered` and `bindings`
      are history: every candidate a session ever stored, every bind it performed. */
  datatype State = State(
    sessions: map<nat, Session>, connectors: map<string, PageId>, tasks: multiset<Task>,
    offered: map<nat, set<PageId>>, bindings: set<(nat, PageId)>)

  datatype CallbackResult = Denied | NoCode | ExchangeFails | Pages(pages: seq<PageId>)

  datatype Step =
    | StartConnection(session: nat, tenant: string, expiresAt: int)
    | Callback(session: nat, now: int, result: CallbackResult)
    | Check(session: nat, page: PageId, overwrite: bool)
    | Bind(task: Task)
    | Complete(task: Task)
    | CallFails(task: Task)
    | Disconnect(tenant: string)

  function Current(s: State, tenant: string): Option<PageId> {
    if tenant in s.connectors then Some(s.connectors[tenant]) else None
  }

  predicate RequiresOverwrite(current: Option<PageId>, page: PageId) {
    current.Some? && current.value != "" && current.value != page
  }

  function SetSession(s: State, id: nat, x: Session): State {
    s.(sessions := s.sessions[id := x])
  }

  function CallbackStep(s: State, id: nat, now: int, result: CallbackResult): State
    requires id in s.sessions && id in s.offered
  {
    var x := s.sessions[id];
    if x.expiresAt <= now then SetSession(s, id, x.(status := Expired))
    else match result
      case Denied => SetSession(s, id, x.(status := Failed))
      case NoCode => s
      case ExchangeFails => s
      case Pages(pages) =>
        if pages == [] then SetSession(s, id, x.(status := Failed))
        else SetSession(s, id, x.(status := SelectingPage, candidates := pages))
               .(offered := s.offered[id := s.offered[id] + set p | p in pages])
  }

  /** Neither the status nor the expiry of the session is looked at. */
  function CheckStep(s: State, id: nat, page: PageId, overwrite: bool): State
    requires id in s.sessions
  {
    var x := s.sessions[id];
    if page !in x.candidates then s
    else if RequiresOverwrite(Current(s, x.tenant), page) && !overwrite
    then SetSession(s, id, x.(status := AwaitingOverwrite, selected := page))
    else s.(tasks := s.tasks + multiset{Checked(id, x.tenant, page, overwrite, Current(s, x.tenant))})
  }

  function BindStep(s: State, t: Task): State
    requires t.Checked?
  {
    s.(connectors := s.connectors[t.tenant := t.page],
       tasks := s.tasks - multiset{t} + multiset{Bound(t.session, t.tenant, t.page)},
       bindings := s.bindings + {(t.session, t.page)})
  }

  function CompleteStep(s: State, t: Task): State
    requires t.Bound? && t.session in s.sessions
  {
    SetSession(s, t.session, s.sessions[t.session].(status := Completed, selected := t.page))
      .(tasks := s.tasks - multiset{t})
  }

  function Apply(s: State, step: Step): State {
    match step
    case StartConnection(id, tenant, expiresAt) =>
      if id in s.sessions then s
      else SetSession(s, id, Session(tenant, Started, [], "", expiresAt)).(offered := s.offered[id := {}])
    case Callback(id, now, result) =>
      if id in s.sessions && id in s.offered then CallbackStep(s, id, now, result) else s
    case Check(id, page, overwrite) => if id in s.sessions then CheckStep(s, id, page, overwrite) else s
    case Bind(t) => if t in s.tasks && t.Checked? then BindStep(s, t) else s
    case Complete(t) => if t in s.tasks && t.Bound? && t.session in s.sessions then CompleteStep(s, t) else s
    case CallFails(t) => s.(tasks := s.tasks - multiset{t})
    case Disconnect(tenant) => s.(connectors := s.connectors - {tenant})
  }

  function Run(s: State, steps: seq<Step>): State
    decreases |steps|
  {
    if steps == [] then s else Run(Apply(s, steps[0]), steps[1..])
  }

  const EMPTY := State(map[], map[], multiset{}, map[], {})

  // ── What a step does ────────────────────────────────────────────────────

  /** Only one session may have changed; connectors, tasks and binds have not. */
  predicate OnlySession(s: State, t: State, id: nat) {
    && t.sessions.Keys == s.sessions.Keys + {id}
    && (forall k :: k in s.sessions && k != id ==> t.sessions[k] == s.sessions[k])
    && t.connectors == s.connectors && t.tasks == s.tasks && t.bindings == s.bindings
  }

  /** A new session is started and has nothing to choose from; a used id starts nothing. */
  lemma ConnectionStarts(s: State, id: nat, tenant: string, expiresAt: int)
    ensures var t := Apply(s, StartConnection(id, tenant, expiresAt));
            if id in s.sessions then t == s
            else OnlySession(s, t, id) && t.sessions[id] == Session(tenant, Started, [], "", expiresAt)
  {
  }

  /** The callback of a session that has expired marks it so. In time, a denial or an empty
      list of pages fails it, pages become what can be chosen from, and a callback without
      a code or with a failed exchange leaves it as it is. */
  lemma CallbackMoves(s: State, id: nat, now: int, result: CallbackResult)
    requires id in s.sessions && id in s.offered
    ensures var x, t := s.sessions[id], Apply(s, Callback(id, now, result));
            var inTime := now < x.expiresAt;
            && OnlySession(s, t, id)
            && (!inTime ==> t.sessions[id] == x.(status := Expired))
            && (inTime && (result.Denied? || result == Pages([])) ==> t.sessions[id] == x.(status := Failed))
            && (inTime && (result.NoCode? || result.ExchangeFails?) ==> t.sessions[id] == x)
            && (inTime && result.Pages? && result.pages != [] ==>
                  t.sessions[id] == x.(status := SelectingPage, candidates := result.pages))
  {
  }

  /** A selection is checked against the candidates and the page bound now: an unknown page
      changes nothing, another page bound without an agreement to overwrite is reported in
      the session, and anything else goes on to bind. */
  lemma CheckMoves(s: State, id: nat, page: PageId, overwrite: bool)
    requires id in s.sessions
    ensures var x, t := s.sessions[id], Apply(s, Check(id, page, overwrite));
            var other := x.tenant in s.connectors && s.connectors[x.tenant] !in {"", page};
            var current := if x.tenant in s.connectors then Some(s.connectors[x.tenant]) else None;
            && (page !in x.candidates ==> t == s)
            && (page in x.candidates && other && !overwrite ==>
                  OnlySession(s, t, id) && t.sessions[id] == x.(status := AwaitingOverwrite, selected := page))
            && (page in x.candidates && (!other || overwrite) ==>
                  t == s.(tasks := s.tasks + multiset{Checked(id, x.tenant, page, overwrite, current)}))
  {
  }

  /** The bind writes the connector of the tenant, the completion the session; a call that
      fails on the way only ends. */
  lemma TasksMove(s: State, task: Task)
    requires task in s.tasks
    ensures task.Checked? ==>
      var t := Apply(s, Bind(task));
      && t.connectors == s.connectors[task.tenant := task.page] && t.sessions == s.sessions
      && t.tasks == s.tasks - multiset{task} + multiset{Bound(task.session, task.tenant, task.page)}
    ensures task.Bound? && task.session in s.sessions ==>
      var t := Apply(s, Complete(task));
      && t.connectors == s.connectors && t.tasks == s.tasks - multiset{task}
      && t.sessions == s.sessions[task.session :=
           s.sessions[task.session].(status := Completed, selected := task.page)]
    ensures Apply(s, CallFails(task)) == s.(tasks := s.tasks - multiset{task})
  {
  }

  /** A disconnected tenant has no connector, the others keep theirs. */
  lemma DisconnectRemoves(s: State, tenant: string)
    ensures var t := Apply(s, Disconnect(tenant));
            && t.connectors.Keys == s.connectors.Keys - {tenant} && t.sessions == s.sessions
            && forall x :: x in t.connectors ==> t.connectors[x] == s.connectors[x]
  {
  }

  // ── Invariant ───────────────────────────────────────────────────────────

  predicate Offered(offered: map<nat, set<PageId>>, id: nat, page: PageId) {
    id in offered && page in offered[id]
  }

  predicate SessionOk(s: State, id: nat)
    requires id in s.sessions
  {
    var x := s.sessions[id];
    && id in s.offered
    && (forall i :: 0 <= i < |x.candidates| ==> x.candidates[i] in s.offered[id])
    && (x.selected != "" ==> x.selected in s.offered[id])
    && (x.status == Completed ==> (id, x.selected) in s.bindings)
  }

  predicate TaskOk(s: State, t: Task) {
    && t.session in s.sessions && s.sessions[t.session].tenant == t.tenant
    && Offered(s.offered, t.session, t.page)
    && match t
       case Checked(_, _, page, overwrite, seen) => overwrite || !RequiresOverwrite(seen, page)
       case Bound(id, _, page) => (id, page) in s.bindings
  }

  ghost predicate Inv(s: State) {
    && s.offered.Keys == s.sessions.Keys
    && (forall id :: id in s.sessions ==> SessionOk(s, id))
    && (forall t :: t in s.tasks ==> TaskOk(s, t))
    && (forall b :: b in s.bindings ==> Offered(s.offered, b.0, b.1))
  }

  /** Sessions keep their tenant, history only grows. */
  predicate Extends(s: State, t: State) {
    && (forall id :: id in s.sessions ==> id in t.sessions && t.sessions[id].tenant == s.sessions[id].tenant)
    && (forall id :: id in s.offered ==> id in t.offered && s.offered[id] <= t.offered[id])
    && s.bindings <= t.bindings
  }

  lemma ChangeInv(s: State, t: State, id: nat)
    requires Inv(s) && Extends(s, t) && t.bindings == s.bindings && t.offered.Keys == t.sessions.Keys
    requires t.sessions.Keys == s.sessions.Keys + {id} && SessionOk(t, id)
    requires forall k :: k in s.sessions && k != id ==> t.sessions[k] == s.sessions[k]
    requires forall task :: task in t.tasks ==> task in s.tasks || TaskOk(t, task)
    ensures Inv(t)
  {
    forall k | k in t.sessions ensures SessionOk(t, k) { if k != id { assert SessionOk(s, k); } }
    forall task | task in t.tasks ensures TaskOk(t, task) { if task in s.tasks { assert TaskOk(s, task); } }
    forall b | b in t.bindings ensures Offered(t.offered, b.0, b.1) { assert Offered(s.offered, b.0, b.1); }
  }

  lemma BindInv(s: State, task: Task)
    requires Inv(s) && task in s.tasks && task.Checked?
    ensures Inv(BindStep(s, task))
  {
    var t := BindStep(s, task);
    assert TaskOk(s, task);
    forall k | k in t.sessions ensures SessionOk(t, k) { assert SessionOk(s, k); }
    forall x | x in t.tasks ensures TaskOk(t, x) { if x in s.tasks { assert TaskOk(s, x); } }
  }

  lemma TasksInv(s: State, t: State)
    requires Inv(s) && t.sessions == s.sessions && t.offered == s.offered && t.bindings == s.bindings
    requires forall task :: task in t.tasks ==> task in s.tasks || TaskOk(t, task)
    ensures Inv(t)
  {
  }

  lemma CheckInv(s: State, id: nat, page: PageId, overwrite: bool)
    requires Inv(s) && id in s.sessions
    ensures Inv(CheckStep(s, id, page, overwrite))
  {
    var t := CheckStep(s, id, page, overwrite);
    var x := s.sessions[id];
    assert SessionOk(s, id);
    if page !in x.candidates {
    } else if RequiresOverwrite(Current(s, x.tenant), page) && !overwrite {
      ChangeInv(s, t, id);
    } else {
      TasksInv(s, t);
    }
  }

  lemma StatusInv(s: State, id: nat, status: Status)
    requires Inv(s) && id in s.sessions && status != Completed
    ensures Inv(SetSession(s, id, s.sessions[id].(status := status)))
  {
  }

  lemma PagesInv(s: State, id: nat, pages: seq<PageId>)
    requires Inv(s) && id in s.sessions
    ensures Inv(SetSession(s, id, s.sessions[id].(status := SelectingPage, candidates := pages))
                  .(offered := s.offered[id := s.offered[id] + set p | p in pages]))
  {
    assert SessionOk(s, id);
    var t := SetSession(s, id, s.sessions[id].(status := SelectingPage, candidates := pages))
               .(offered := s.offered[id := s.offered[id] + set p | p in pages]);
    assert forall i :: 0 <= i < |pages| ==> pages[i] in t.offered[id];
    ChangeInv(s, t, id);
  }

  lemma CallbackInv(s: State, id: nat, now: int, result: CallbackResult)
    requires Inv(s) && id in s.sessions
    ensures Inv(CallbackStep(s, id, now, result))
  {
    StatusInv(s, id, Expired);
    StatusInv(s, id, Failed);
    if result.Pages? { PagesInv(s, id, result.pages); }
  }

  lemma CompleteInv(s: State, task: Task)
    requires Inv(s) && task in s.tasks && task.Bound?
    ensures task.session in s.sessions && Inv(CompleteStep(s, task))
  {
    assert TaskOk(s, task) && SessionOk(s, task.session);
    ChangeInv(s, CompleteStep(s, task), task.session);
  }

  lemma StartInv(s: State, id: nat, tenant: string, expiresAt: int)
    requires Inv(s) && id !in s.sessions
    ensures Inv(Apply(s, StartConnection(id, tenant, expiresAt)))
  {
    ChangeInv(s, Apply(s, StartConnection(id, tenant, expiresAt)), id);
  }

  predicate OnSession(step: Step) { step.StartConnection? || step.Callback? || step.Check? }

  lemma SessionStepInv(s: State, step: Step)
    requires Inv(s) && OnSession(step)
    ensures Inv(Apply(s, step))
  {
    match step
    case StartConnection(id, tenant, expiresAt) => if id !in s.sessions { StartInv(s, id, tenant, expiresAt); }
    case Callback(id, now, result) => if id in s.sessions { CallbackInv(s, id, now, result); }
    case Check(id, page, overwrite) => if id in s.sessions { CheckInv(s, id, page, overwrite); }
  }

  lemma BindStepInv(s: State, task: Task)
    requires Inv(s)
    ensures Inv(Apply(s, Bind(task)))
  {
    if task in s.tasks && task.Checked? { BindInv(s, task); }
  }

  lemma CompleteStepInv(s: State, task: Task)
    requires Inv(s)
    ensures Inv(Apply(s, Complete(task)))
  {
    if task in s.tasks && task.Bound? { CompleteInv(s, task); }
  }

  lemma FailsInv(s: State, task: Task)
    requires Inv(s)
    ensures Inv(Apply(s, CallFails(task)))
  {
    TasksInv(s, s.(tasks := s.tasks - multiset{task}));
  }

  lemma DisconnectInv(s: State, tenant: string)
    requires Inv(s)
    ensures Inv(Apply(s, Disconnect(tenant)))
  {
    TasksInv(s, s.(connectors := s.connectors - {tenant}));
  }

  lemma StepInv(s: State, step: Step)
    requires Inv(s)
    ensures Inv(Apply(s, step))
  {
    match step
    case Bind(task) => BindStepInv(s, task);
    case Complete(task) => CompleteStepInv(s, task);
    case CallFails(task) => FailsInv(s, task);
    case Disconnect(tenant) => DisconnectInv(s, tenant);
    case _ => SessionStepInv(s, step);
  }

  lemma {:induction false} RunInv(s: State, steps: seq<Step>)
    requires Inv(s)
    ensures Inv(Run(s, steps))
    decreases |steps|
  {
    if steps != [] {
      StepInv(s, steps[0]);
      RunInv(Apply(s, steps[0]), steps[1..]);
    }
  }

  // ── Consent ─────────────────────────────────────────────────────────────

  /** The step replaces a bound page by a different one. */
  predicate Moves(s: State, step: Step, tenant: string) {
    var before, after := Current(s, tenant), Current(Apply(s, step), tenant);
    before.Some? && before.value != "" && after.Some? && after.value != "" && before != after
  }

  /** Binding now what an earlier check allowed, when the same check would now refuse. */
  predicate StaleCheck(s: State, step: Step, tenant: string) {
    && step.Bind? && step.task in s.tasks && step.task.Checked? && step.task.tenant == tenant
    && !step.task.overwrite && RequiresOverwrite(Current(s, tenant), step.task.page)
  }

  predicate Consented(step: Step, tenant: string) {
    step.Bind? && step.task.Checked? && step.task.tenant == tenant && step.task.overwrite
  }

  /** A tenant's page is replaced without consent exactly when a check is stale (and the
      chosen page is not blank); then the connector has changed since that check. */
  lemma ConsentExact(s: State, step: Step, tenant: string)
    requires Inv(s)
    ensures Moves(s, step, tenant) && !Consented(step, tenant) <==> StaleCheck(s, step, tenant) && step.task.page != ""
    ensures StaleCheck(s, step, tenant) ==> step.task.seen != Current(s, tenant)
  {
    if step.Bind? && step.task in s.tasks && step.task.Checked? { assert TaskOk(s, step.task); }
    else { OnlyBindMoves(s, step, tenant); }
  }

  lemma OnlyBindMoves(s: State, step: Step, tenant: string)
    requires step.Bind? ==> step.task !in s.tasks || !step.task.Checked?
    ensures !Moves(s, step, tenant)
  {
  }

  /** Two selections that both checked before either bound: the second page replaces the
      first and nobody agreed to overwrite anything. */
  lemma RacingSelections(s: State, id: nat, p: PageId, q: PageId)
    requires id in s.sessions && p in s.sessions[id].candidates && q in s.sessions[id].candidates
    requires p != q && p != "" && q != "" && s.sessions[id].tenant !in s.connectors
    ensures var tenant := s.sessions[id].tenant;
            var t := Apply(Apply(s, Check(id, p, false)), Check(id, q, false));
            var u := Apply(t, Bind(Checked(id, tenant, p, false, None)));
            var bindQ := Bind(Checked(id, tenant, q, false, None));
            && Current(u, tenant) == Some(p) && Current(Apply(u, bindQ), tenant) == Some(q)
            && Moves(u, bindQ, tenant) && !Consented(bindQ, tenant)
  {
    var tenant := s.sessions[id].tenant;
    var a := Apply(s, Check(id, p, false));
    assert a.tasks == s.tasks + multiset{Checked(id, tenant, p, false, None)};
    var t := Apply(a, Check(id, q, false));
    assert t.tasks == a.tasks + multiset{Checked(id, tenant, q, false, None)};
    var u := Apply(t, Bind(Checked(id, tenant, p, false, None)));
    assert Checked(id, tenant, q, false, None) in u.tasks;
  }

  // ── Calls that are not interrupted ──────────────────────────────────────

  datatype Call =
    | Start(session: nat, tenant: string, expiresAt: int)
    | HandleCallback(session: nat, now: int, result: CallbackResult)
    | SelectPage(session: nat, page: PageId, overwrite: bool)
    | Drop(tenant: string)

  predicate Binds(s: State, id: nat, page: PageId, overwrite: bool)
    requires id in s.sessions
  {
    page in s.sessions[id].candidates && (overwrite || !RequiresOverwrite(Current(s, s.sessions[id].tenant), page))
  }

  function Select(s: State, id: nat, page: PageId, overwrite: bool): State
    requires id in s.sessions
  {
    var x := s.sessions[id];
    if !Binds(s, id, page, overwrite) then CheckStep(s, id, page, overwrite)
    else
      SetSession(s, id, x.(status := Completed, selected := page))
        .(connectors := s.connectors[x.tenant := page], bindings := s.bindings + {(id, page)})
  }

  function Handle(s: State, call: Call): State {
    match call
    case Start(id, tenant, expiresAt) => Apply(s, StartConnection(id, tenant, expiresAt))
    case HandleCallback(id, now, result) => Apply(s, Callback(id, now, result))
    case SelectPage(id, page, overwrite) => if id in s.sessions then Select(s, id, page, overwrite) else s
    case Drop(tenant) => Apply(s, Disconnect(tenant))
  }

  function RunCalls(s: State, calls: seq<Call>): State
    decreases |calls|
  {
    if calls == [] then s else RunCalls(Handle(s, calls[0]), calls[1..])
  }

  /** An uninterrupted selection is its check, its bind and its completion in turn. */
  lemma SelectIsThreeSteps(s: State, id: nat, page: PageId, overwrite: bool)
    requires id in s.sessions && Binds(s, id, page, overwrite)
    ensures var x := s.sessions[id];
            var checked := Checked(id, x.tenant, page, overwrite, Current(s, x.tenant));
            var t := Apply(Apply(s, Check(id, page, overwrite)), Bind(checked));
            Select(s, id, page, overwrite) == Apply(t, Complete(Bound(id, x.tenant, page)))
  {
    var x := s.sessions[id];
    var checked, bound := Checked(id, x.tenant, page, overwrite, Current(s, x.tenant)), Bound(id, x.tenant, page);
    var a := Apply(s, Check(id, page, overwrite));
    assert a == s.(tasks := s.tasks + multiset{checked});
    BindFirst(s, checked);
    var b := BindStep(a, checked);
    assert b.tasks == s.tasks + multiset{bound};
    CompleteFirst(b, s.tasks, bound);
  }

  /** What a whole selection does: nothing without the session or the candidate, a question
      to the owner when another page is bound and no overwrite was agreed, and otherwise
      the page bound and the session completed with it. */
  lemma SelectMoves(s: State, id: nat, page: PageId, overwrite: bool)
    ensures var t := Handle(s, Call.SelectPage(id, page, overwrite));
            && (id !in s.sessions || page !in s.sessions[id].candidates ==> t == s)
            && (id in s.sessions && page in s.sessions[id].candidates ==>
                  var x := s.sessions[id];
                  var other := x.tenant in s.connectors && s.connectors[x.tenant] !in {"", page};
                  if other && !overwrite
                  then OnlySession(s, t, id) && t.sessions[id] == x.(status := AwaitingOverwrite, selected := page)
                  else
                    && t.connectors == s.connectors[x.tenant := page] && t.tasks == s.tasks
                    && t.sessions == s.sessions[id := x.(status := Completed, selected := page)])
  {
  }

  /** The other calls are the steps of the same name. */
  lemma CallsAreSteps(s: State, id: nat, tenant: string, time: int, result: CallbackResult)
    ensures Handle(s, Start(id, tenant, time)) == Apply(s, StartConnection(id, tenant, time))
    ensures Handle(s, HandleCallback(id, time, result)) == Apply(s, Callback(id, time, result))
    ensures Handle(s, Drop(tenant)) == Apply(s, Disconnect(tenant))
  {
  }

  lemma BindFirst(s: State, t: Task)
    requires t.Checked?
    ensures var a := s.(tasks := s.tasks + multiset{t});
            && Apply(a, Bind(t)) == BindStep(a, t)
            && BindStep(a, t).tasks == s.tasks + multiset{Bound(t.session, t.tenant, t.page)}
  {
  }

  lemma CompleteFirst(b: State, rest: multiset<Task>, t: Task)
    requires t.Bound? && t.session in b.sessions && b.tasks == rest + multiset{t}
    ensures Apply(b, Complete(t)) == CompleteStep(b, t) && CompleteStep(b, t).tasks == rest
  {
  }

  lemma SelectInv(s: State, id: nat, page: PageId, overwrite: bool)
    requires Inv(s) && id in s.sessions
    ensures Inv(Select(s, id, page, overwrite))
  {
    if Binds(s, id, page, overwrite) {
      var x := s.sessions[id];
      var checked, bound := Checked(id, x.tenant, page, overwrite, Current(s, x.tenant)), Bound(id, x.tenant, page);
      SelectIsThreeSteps(s, id, page, overwrite);
      StepInv(s, Check(id, page, overwrite));
      var a := Apply(s, Check(id, page, overwrite));
      StepInv(a, Bind(checked));
      StepInv(Apply(a, Bind(checked)), Complete(bound));
    } else {
      CheckInv(s, id, page, overwrite);
    }
  }

  lemma HandleInv(s: State, call: Call)
    requires Inv(s)
    ensures Inv(Handle(s, call))
  {
    match call
    case Start(id, t, expiresAt) => StepInv(s, StartConnection(id, t, expiresAt));
    case HandleCallback(id, now, result) => StepInv(s, Callback(id, now, result));
    case SelectPage(id, page, overwrite) => if id in s.sessions { SelectInv(s, id, page, overwrite); }
    case Drop(t) => StepInv(s, Disconnect(t));
  }

  /** Whole calls, any number of sessions: a tenant's connector moves from one page to a
      different one only in a selection that agreed to overwrite. */
  lemma CallsNeedConsent(s: State, call: Call, tenant: string)
    ensures var before, after := Current(s, tenant), Current(Handle(s, call), tenant);
            before.Some? && before.value != "" && after.Some? && before != after ==>
              && call.SelectPage? && call.overwrite
              && call.session in s.sessions && s.sessions[call.session].tenant == tenant
  {
  }

  /** The call that completes a session has just bound its tenant to the page selected,
      which is one of the candidates stored with the session. */
  lemma CompletionBinds(s: State, call: Call, id: nat)
    requires id in s.sessions && id in Handle(s, call).sessions
    requires s.sessions[id].status != Completed && Handle(s, call).sessions[id].status == Completed
    ensures var t := Handle(s, call);
            && Current(t, s.sessions[id].tenant) == Some(t.sessions[id].selected)
            && t.sessions[id].selected in s.sessions[id].candidates
            && call.SelectPage? && call.session == id
  {
  }

  lemma {:induction false} CallsInv(s: State, calls: seq<Call>)
    requires Inv(s)
    ensures Inv(RunCalls(s, calls))
    decreases |calls|
  {
    if calls != [] {
      HandleInv(s, calls[0]);
      CallsInv(Handle(s, calls[0]), calls[1..]);
    }
  }

  /** No call that could change the tenant's page with its owner's knowledge. */
  predicate Silent(s: State, call: Call, tenant: string) {
    && !(call.Drop? && call.tenant == tenant)
    && !(call.SelectPage? && call.overwrite && call.session in s.sessions && s.sessions[call.session].tenant == tenant)
  }

  predicate SilentRun(s: State, calls: seq<Call>, tenant: string)
    decreases |calls|
  {
    calls != [] ==> Silent(s, calls[0], tenant) && SilentRun(Handle(s, calls[0]), calls[1..], tenant)
  }

  /** A bound page stays bound through any run of calls in which nobody disconnects the
      tenant or agrees to overwrite, whatever sessions, callbacks and selections do. */
  lemma {:induction false} BoundPageStays(s: State, calls: seq<Call>, tenant: string)
    requires Current(s, tenant).Some? && Current(s, tenant).value != "" && SilentRun(s, calls, tenant)
    ensures Current(RunCalls(s, calls), tenant) == Current(s, tenant)
    decreases |calls|
  {
    if calls != [] {
      CallsNeedConsent(s, calls[0], tenant);
      StillConnected(s, calls[0], tenant);
      BoundPageStays(Handle(s, calls[0]), calls[1..], tenant);
    }
  }

  lemma StillConnected(s: State, call: Call, tenant: string)
    requires Current(s, tenant).Some? && Silent(s, call, tenant)
    ensures Current(Handle(s, call), tenant).Some?
  {
  }

  /** However calls interleave: a selected page was stored as a candidate of its session,
      and a completed session performed the bind it reports. */
  lemma EveryRunSelectsOffered(steps: seq<Step>, id: nat)
    requires id in Run(EMPTY, steps).sessions
    ensures var s := Run(EMPTY, steps);
            var x := s.sessions[id];
            && (x.selected != "" ==> Offered(s.offered, id, x.selected))
            && (x.status == Completed ==> (id, x.selected) in s.bindings)
  {
    RunInv(EMPTY, steps);
    assert SessionOk(Run(EMPTY, steps), id);
  }

  // ── The service ─────────────────────────────────────────────────────────

  datatype SelectResult = SessionNotFound | PageNotFound | OverwriteRequired | Connected(page: PageId)

  class OAuthFlowService {
    var sessions: map<nat, Session>
    var connectors: map<string, PageId>
    ghost var offered: map<nat, set<PageId>>
    ghost var bindings: set<(nat, PageId)>

    ghost function Model(): State
      reads this
    {
      State(sessions, connectors, multiset{}, offered, bindings)
    }

    constructor ()
      ensures Model() == EMPTY
    {
      sessions, connectors := map[], map[];
      offered, bindings := map[], {};
    }

    method SelectPage(id: nat, page: string, overwrite: bool) returns (r: SelectResult)
      modifies this
      ensures Model() == Handle(old(Model()), Call.SelectPage(id, Strip(page), overwrite))
      ensures r.SessionNotFound? <==> id !in old(sessions)
      ensures r.PageNotFound? <==> id in old(sessions) && Strip(page) !in old(sessions)[id].candidates
      ensures r.OverwriteRequired? ==> !overwrite && sessions[id].status == AwaitingOverwrite
      ensures r.OverwriteRequired? ==> connectors == old(connectors)
      ensures r.Connected? ==> r.page == Strip(page) && sessions[id].status == Completed
      ensures r.Connected? ==> connectors == old(connectors)[old(sessions)[id].tenant := r.page]
    {
      if id !in sessions { return SessionNotFound; }
      var session := sessions[id];
      var wanted: PageId := Strip(page);
      var i := 0;
      while i < |session.candidates| && session.candidates[i] != wanted
        invariant 0 <= i <= |session.candidates|
        invariant forall k :: 0 <= k < i ==> session.candidates[k] != wanted
      {
        i := i + 1;
      }
      if i == |session.candidates| { return PageNotFound; }
      var existing := if session.tenant in connectors then connectors[session.tenant] else "";
      if existing != "" && existing != wanted && !overwrite {
        sessions := sessions[id := session.(status := AwaitingOverwrite, selected := wanted)];
        return OverwriteRequired;
      }
      connectors := connectors[session.tenant := wanted];
      bindings := bindings + {(id, wanted)};
      sessions := sessions[id := session.(status := Completed, selected := wanted)];
      return Connected(wanted);
    }

    /** True if the callback leads to a page selection; every other outcome raises. */
    method HandleCallback(id: nat, now: int, result: CallbackResult) returns (ok: bool)
      requires id in sessions && id in offered
      modifies this
      ensures Model() == Handle(old(Model()), Call.HandleCallback(id, now, result))
      ensures ok <==> now < old(sessions)[id].expiresAt && result.Pages? && result.pages != []
    {
      var session := sessions[id];
      if session.expiresAt <= now {
        sessions := sessions[id := session.(status := Expired)];
        return false;
      }
      match result
      case Denied => sessions := sessions[id := session.(status := Failed)]; return false;
      case NoCode => return false;
      case ExchangeFails => return false;
      case Pages(pages) =>
        if pages == [] {
          sessions := sessions[id := session.(status := Failed)];
          return false;
        }
        sessions := sessions[id := session.(status := SelectingPage, candidates := pages)];
        offered := offered[id := offered[id] + set p | p in pages];
        return true;
    }

    method Disconnect(tenant: string) returns (found: bool)
      modifies this
      ensures Model() == Handle(old(Model()), Drop(tenant))
      ensures found <==> tenant in old(connectors)
    {
      found := tenant in connectors;
      connectors := connectors - {tenant};
    }
  }
}
