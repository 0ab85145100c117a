/** What a button press in the first-generation bridge does to AgentOS and to the local
    row, and where each decision that AgentOS holds comes from. */
module BridgeTaps {
  import opened Common
  import opened LegacyBridge

  // ── One undisturbed tap ─────────────────────────────────────────────────

  /** The approval that a tap reaches: the first one of the run without a verdict. */
  predicate FirstOpen(s: State, run: string, i: nat) {
    && run in s.remote && i < |s.remote[run]| && s.remote[run][i].None?
    && forall j :: 0 <= j < i ==> s.remote[run][j].Some?
  }

  /** One approval of a run has got a verdict, and nothing else in AgentOS has changed. */
  predicate OneVerdict(a: Remote, b: Remote, run: string, i: nat, v: Verdict) {
    && run in a && i < |a[run]| && b.Keys == a.Keys
    && (forall r :: r in a && r != run ==> b[r] == a[r])
    && |b[run]| == |a[run]| && b[run][i] == Some(v)
    && forall j :: 0 <= j < |a[run]| && j != i ==> b[run][j] == a[run][j]
  }

  lemma FirstOpenIsFirst(s: State, run: string, i: nat)
    requires FirstOpen(s, run, i)
    ensures FirstNone(Approvals(s.remote, run)) == Some(i)
  {
  }

  /** Asked and decided: where a tap stands when AgentOS has taken its decision. */
  function AfterDecision(s: State, run: string, intent: Intent, i: nat, answer: Answer): State {
    Apply(Apply(Apply(s, Tap(run, intent)), FetchReturns(run, intent)), DecideArrives(Id(run, i), intent, answer))
  }

  lemma TapAsks(s: State, run: string, intent: Intent, i: nat)
    requires FirstOpen(s, run, i)
    ensures Apply(Apply(s, Tap(run, intent)), FetchReturns(run, intent)) ==
            s.(tasks := s.tasks + multiset{Deciding(Id(run, i), intent)})
  {
    var a := Apply(s, Tap(run, intent));
    assert a == s.(tasks := s.tasks + multiset{Fetching(run, intent)});
    FirstOpenIsFirst(s, run, i);
    assert a.tasks - multiset{Fetching(run, intent)} == s.tasks;
  }

  /** Where the call goes on after AgentOS has answered. */
  function NextPhase(intent: Intent, answer: Answer): Phase {
    if intent == Approve && answer == StillWaiting then SystemFetch else Finishing(intent)
  }

  lemma Decides(s: State, run: string, intent: Intent, i: nat, answer: Answer)
    requires FirstOpen(s, run, i) && !answer.Lost?
    ensures var id := Id(run, i);
            var t := Apply(s.(tasks := s.tasks + multiset{Deciding(id, intent)}), DecideArrives(id, intent, answer));
            && t == s.(remote := t.remote, progress := s.progress[id := NextPhase(intent, answer)])
            && OneVerdict(s.remote, t.remote, run, i, Verdict(if intent.Approve? then Approved else Rejected, Owner))
  {
    var id := Id(run, i);
    assert (s.tasks + multiset{Deciding(id, intent)}) - multiset{Deciding(id, intent)} == s.tasks;
  }

  lemma TapDecides(s: State, run: string, intent: Intent, i: nat, answer: Answer)
    requires FirstOpen(s, run, i) && !answer.Lost?
    ensures var t := AfterDecision(s, run, intent, i, answer);
            && t == s.(remote := t.remote, progress := s.progress[Id(run, i) := NextPhase(intent, answer)])
            && OneVerdict(s.remote, t.remote, run, i, Verdict(if intent.Approve? then Approved else Rejected, Owner))
  {
    TapAsks(s, run, intent, i);
    Decides(s, run, intent, i, answer);
  }

  /** A reply that is lost: AgentOS has the decision, the bridge knows nothing of it. */
  lemma LostReply(s: State, run: string, intent: Intent, i: nat)
    requires FirstOpen(s, run, i)
    ensures var t := AfterDecision(s, run, intent, i, Lost);
            && t == s.(remote := t.remote)
            && OneVerdict(s.remote, t.remote, run, i, Verdict(if intent.Approve? then Approved else Rejected, Owner))
  {
    TapAsks(s, run, intent, i);
    DecidesUnheard(s, run, intent, i);
  }

  lemma DecidesUnheard(s: State, run: string, intent: Intent, i: nat)
    requires FirstOpen(s, run, i)
    ensures var id := Id(run, i);
            var t := Apply(s.(tasks := s.tasks + multiset{Deciding(id, intent)}), DecideArrives(id, intent, Lost));
            && t == s.(remote := t.remote)
            && OneVerdict(s.remote, t.remote, run, i, Verdict(if intent.Approve? then Approved else Rejected, Owner))
  {
    var id := Id(run, i);
    assert (s.tasks + multiset{Deciding(id, intent)}) - multiset{Deciding(id, intent)} == s.tasks;
  }

  /** The row of a run, if it has one, gets that status; no other row changes. */
  predicate RowBecomes(a: map<string, Local>, b: map<string, Local>, run: string, status: Local) {
    b.Keys == a.Keys && forall r :: r in a ==> b[r] == if r == run then status else a[r]
  }

  lemma DecisionWritten(s: State, id: Id, intent: Intent)
    requires id in s.progress && s.progress[id] == Finishing(intent) && !intent.Defer?
    ensures var t := Apply(s, WriteLocal(id, false));
            && RowBecomes(s.local, t.local, id.run, Decided(if intent == Approve then Approved else Rejected))
            && t.remote == s.remote && t.items == s.items
  {
  }

  /** A pressed Reject button rejects: in AgentOS, as the owner's verdict on the first open
      approval, and in the local row. Nothing is scheduled. */
  lemma UndisturbedReject(s: State, run: string, i: nat, answer: Answer)
    requires FirstOpen(s, run, i) && !answer.Lost?
    ensures var t := Apply(AfterDecision(s, run, Reject, i, answer), WriteLocal(Id(run, i), false));
            && OneVerdict(s.remote, t.remote, run, i, Verdict(Rejected, Owner))
            && RowBecomes(s.local, t.local, run, Decided(Rejected)) && t.items == s.items
  {
    TapDecides(s, run, Reject, i, answer);
    DecisionWritten(AfterDecision(s, run, Reject, i, answer), Id(run, i), Reject);
  }

  /** A pressed Approve button approves, when AgentOS goes on at once. */
  lemma UndisturbedApprove(s: State, run: string, i: nat)
    requires FirstOpen(s, run, i)
    ensures var t := Apply(AfterDecision(s, run, Approve, i, Done), WriteLocal(Id(run, i), false));
            && OneVerdict(s.remote, t.remote, run, i, Verdict(Approved, Owner))
            && RowBecomes(s.local, t.local, run, Decided(Approved)) && t.items == s.items
  {
    TapDecides(s, run, Approve, i, Done);
    DecisionWritten(AfterDecision(s, run, Approve, i, Done), Id(run, i), Approve);
  }

  lemma CheckpointAsked(s: State, id: Id, j: nat)
    requires id in s.progress && s.progress[id] == SystemFetch && FirstOpen(s, id.run, j)
    ensures Apply(s, SystemFetchReturns(id)) == s.(progress := s.progress[id := SystemDecide(Id(id.run, j))])
  {
    FirstOpenIsFirst(s, id.run, j);
  }

  lemma CheckpointApproved(s: State, id: Id, j: nat)
    requires id in s.progress && s.progress[id] == SystemDecide(Id(id.run, j)) && FirstOpen(s, id.run, j)
    ensures var t := Apply(s, SystemDecides(id));
            && t == s.(remote := t.remote, progress := s.progress[id := Finishing(Approve)])
            && OneVerdict(s.remote, t.remote, id.run, j, Verdict(Approved, System))
  {
  }

  /** When the run still waits after that, the next open approval is approved as well, by
      the system. */
  lemma UndisturbedCheckpoint(s: State, run: string, i: nat, j: nat)
    requires FirstOpen(s, run, i) && i < j < |s.remote[run]| && s.remote[run][j].None?
    requires forall k :: i < k < j ==> s.remote[run][k].Some?
    ensures var id := Id(run, i);
            var a := AfterDecision(s, run, Approve, i, StillWaiting);
            var t := Apply(Apply(Apply(a, SystemFetchReturns(id)), SystemDecides(id)), WriteLocal(id, false));
            && OneVerdict(s.remote, a.remote, run, i, Verdict(Approved, Owner))
            && OneVerdict(a.remote, t.remote, run, j, Verdict(Approved, System))
            && RowBecomes(s.local, t.local, run, Decided(Approved)) && t.items == s.items
  {
    var id := Id(run, i);
    var a := AfterDecision(s, run, Approve, i, StillWaiting);
    TapDecides(s, run, Approve, i, StillWaiting);
    assert FirstOpen(a, run, j);
    CheckpointAsked(a, id, j);
    var b := Apply(a, SystemFetchReturns(id));
    CheckpointApproved(b, id, j);
    DecisionWritten(Apply(b, SystemDecides(id)), id, Approve);
  }

  /** And only the owner's approval stands if there is no further one. */
  lemma UndisturbedLastApproval(s: State, run: string, i: nat)
    requires FirstOpen(s, run, i) && forall k :: i < k < |s.remote[run]| ==> s.remote[run][k].Some?
    ensures var id := Id(run, i);
            var a := AfterDecision(s, run, Approve, i, StillWaiting);
            var t := Apply(Apply(a, SystemFetchReturns(id)), WriteLocal(id, false));
            && OneVerdict(s.remote, t.remote, run, i, Verdict(Approved, Owner))
            && RowBecomes(s.local, t.local, run, Decided(Approved)) && t.items == s.items
  {
    var id := Id(run, i);
    var a := AfterDecision(s, run, Approve, i, StillWaiting);
    TapDecides(s, run, Approve, i, StillWaiting);
    NoneLeft(a, id);
    DecisionWritten(Apply(a, SystemFetchReturns(id)), id, Approve);
  }

  lemma NoneLeft(s: State, id: Id)
    requires id in s.progress && s.progress[id] == SystemFetch && id.run in s.remote
    requires forall k :: 0 <= k < |s.remote[id.run]| ==> s.remote[id.run][k].Some?
    ensures Apply(s, SystemFetchReturns(id)) == s.(progress := s.progress[id := Finishing(Approve)])
  {
  }

  /** A confirmed deferral rejects in AgentOS and leaves one item waiting for its time. */
  lemma UndisturbedDefer(s: State, run: string, i: nat, at: int, answer: Answer)
    requires FirstOpen(s, run, i) && !answer.Lost?
    ensures var t := Apply(AfterDecision(s, run, Defer(at), i, answer), WriteLocal(Id(run, i), false));
            && OneVerdict(s.remote, t.remote, run, i, Verdict(Rejected, Owner))
            && RowBecomes(s.local, t.local, run, Scheduled)
            && t.items == s.items[s.nextItem := Item(Id(run, i), at, Waiting, 0)]
  {
    TapDecides(s, run, Defer(at), i, answer);
    DeferralWritten(AfterDecision(s, run, Defer(at), i, answer), Id(run, i), at);
  }

  lemma DeferralWritten(s: State, id: Id, at: int)
    requires id in s.progress && s.progress[id] == Finishing(Defer(at))
    ensures var t := Apply(s, WriteLocal(id, false));
            && RowBecomes(s.local, t.local, id.run, Scheduled) && t.remote == s.remote
            && t.items == s.items[s.nextItem := Item(id, at, Waiting, 0)]
  {
  }

  /** A tap on a run that AgentOS no longer waits for ends without a trace. */
  lemma TapOnNothing(s: State, run: string, intent: Intent)
    requires run in s.remote ==> forall k :: 0 <= k < |s.remote[run]| ==> s.remote[run][k].Some?
    ensures Apply(Apply(s, Tap(run, intent)), FetchReturns(run, intent)) == s
  {
    var a := Apply(s, Tap(run, intent));
    assert a == s.(tasks := s.tasks + multiset{Fetching(run, intent)});
    assert a.tasks - multiset{Fetching(run, intent)} == s.tasks;
  }

  /** A decision that comes too late for its approval ends without a trace, too. */
  lemma LateDecision(s: State, id: Id, intent: Intent, answer: Answer)
    requires Deciding(id, intent) in s.tasks && id.run in s.remote && id.index < |s.remote[id.run]|
    requires s.remote[id.run][id.index].Some?
    ensures Apply(s, DecideArrives(id, intent, answer)) == s.(tasks := s.tasks - multiset{Deciding(id, intent)})
  {
  }

  // ── The other steps ─────────────────────────────────────────────────────

  /** AgentOS asks once more, or decides an open approval by itself. */
  lemma AgentMoves(s: State, run: string, i: nat, d: Decision)
    ensures var t := Apply(s, AgentRequests(run));
            && t == s.(remote := t.remote) && t.remote.Keys == s.remote.Keys + {run}
            && t.remote[run] == (if run in s.remote then s.remote[run] else []) + [None]
            && forall r :: r in s.remote && r != run ==> t.remote[r] == s.remote[r]
    ensures run in s.remote && i < |s.remote[run]| && s.remote[run][i].None? ==>
      var t := Apply(s, AgentDecides(Id(run, i), d));
      t == s.(remote := t.remote) && OneVerdict(s.remote, t.remote, run, i, Verdict(d, Elsewhere))
  {
  }

  /** A notification opens a row where there is none. Calls and replies get lost one at a
      time, and a restart loses all of them and the publisher's pass. */
  lemma OtherMoves(s: State, run: string, task: Task, id: Id)
    ensures Apply(s, Notify(run)) == s.(local := if run in s.local then s.local else s.local[run := Pending])
    ensures Apply(s, CallFails(task)) == s.(tasks := s.tasks - multiset{task})
    ensures Apply(s, ReplyLost(id)) == s.(progress := s.progress - {id})
    ensures Apply(s, Restart) == s.(tasks := multiset{}, progress := map[], pass := Idle)
  {
  }

  /** The publisher takes what is due, at most twenty items, if it is not at work already. */
  lemma PassStarts(s: State, listing: seq<nat>, now: int)
    ensures var t := Apply(s, StartPass(listing, now));
            var due := |listing| <= 20
                       && (forall i :: 0 <= i < |listing| ==>
                             && listing[i] in s.items && s.items[listing[i]].status == Waiting
                             && s.items[listing[i]].at <= now)
                       && (forall i, j :: 0 <= i < j < |listing| ==> listing[i] != listing[j]);
            t == if s.pass == Idle && due then s.(pass := Pass(listing, None)) else s
  {
  }

  /** A pass ends with no item in hand. */
  lemma PassEnds(s: State)
    ensures Apply(s, EndPass) == if s.pass.Pass? && s.pass.posting.None? then s.(pass := Idle) else s
  {
  }

  /** It marks the next item, posts it, and writes what the answer says; an answer that is
      no object ends the pass and leaves the item as it is. */
  lemma PublisherMoves(s: State, k: nat, rest: seq<nat>)
    requires k in s.items
    ensures s.pass == Pass([k] + rest, None) ==>
      Apply(s, BeginItem) == s.(items := s.items[k := s.items[k].(status := Publishing)], pass := Pass(rest, Some(k)))
    ensures s.pass == Pass(rest, Some(k)) && s.items[k].posts == 0 ==>
      && Apply(s, Post(true)) == s.(items := s.items[k := s.items[k].(status := Publishing, posts := 1)])
      && Apply(s, Post(false)) ==
         s.(items := s.items[k := s.items[k].(status := Failed)], pass := Pass(rest, None))
    ensures s.pass == Pass(rest, Some(k)) && s.items[k].posts == 1 ==>
      && Apply(s, PostReturns(PostPublished)) ==
         s.(items := s.items[k := s.items[k].(status := Published)], pass := Pass(rest, None))
      && Apply(s, PostReturns(PostFailed)) ==
         s.(items := s.items[k := s.items[k].(status := Failed)], pass := Pass(rest, None))
      && Apply(s, PostReturns(NotAnObject)) == s.(pass := Idle)
  {
    assert ([k] + rest)[1..] == rest;
  }

  // ── Where decisions come from ───────────────────────────────────────────

  predicate Tapped(past: seq<Step>, run: string, intent: Intent) {
    exists i :: 0 <= i < |past| && past[i] == Tap(run, intent)
  }

  ghost predicate Deferred(past: seq<Step>, run: string) {
    exists at :: Tapped(past, run, Defer(at))
  }

  /** Somebody pressed the button that this decision stands for. */
  ghost predicate Wanted(past: seq<Step>, run: string, d: Decision) {
    match d
    case Approved => Tapped(past, run, Approve)
    case Rejected => Tapped(past, run, Reject) || Deferred(past, run)
  }

  ghost predicate RowWanted(past: seq<Step>, run: string, row: Local) {
    match row
    case Pending => true
    case Decided(d) => Wanted(past, run, d)
    case Scheduled => Deferred(past, run)
  }

  ghost predicate SaidTraced(past: seq<Step>, remote: Remote) {
    forall id, d :: VerdictAt(remote, id, Verdict(d, Owner)) ==> Wanted(past, id.run, d)
  }

  predicate TasksTraced(past: seq<Step>, tasks: multiset<Task>) {
    forall task :: task in tasks ==> TaskTraced(past, task)
  }

  predicate PhasesTraced(past: seq<Step>, progress: map<Id, Phase>) {
    forall id :: id in progress ==> PhaseTraced(past, id, progress[id])
  }

  ghost predicate RowsTraced(past: seq<Step>, rows: map<string, Local>) {
    forall run :: run in rows ==> RowWanted(past, run, rows[run])
  }

  /** The owner's verdicts, the calls on their way and the local rows have their taps. */
  ghost predicate Traced(past: seq<Step>, s: State) {
    && SaidTraced(past, s.remote) && TasksTraced(past, s.tasks)
    && PhasesTraced(past, s.progress) && RowsTraced(past, s.local)
  }

  predicate TaskTraced(past: seq<Step>, task: Task) {
    match task
    case Fetching(run, intent) => Tapped(past, run, intent)
    case Deciding(id, intent) => Tapped(past, id.run, intent)
  }

  predicate PhaseTraced(past: seq<Step>, id: Id, p: Phase) {
    match p
    case SystemFetch => Tapped(past, id.run, Approve)
    case SystemDecide(_) => Tapped(past, id.run, Approve)
    case Finishing(intent) => Tapped(past, id.run, intent)
  }

  lemma TappedGrows(past: seq<Step>, step: Step)
    ensures forall run, intent :: Tapped(past, run, intent) ==> Tapped(past + [step], run, intent)
    ensures step.Tap? ==> Tapped(past + [step], step.run, step.intent)
  {
    forall run, intent | Tapped(past, run, intent) ensures Tapped(past + [step], run, intent) {
      var i :| 0 <= i < |past| && past[i] == Tap(run, intent);
      assert (past + [step])[i] == Tap(run, intent);
    }
    assert (past + [step])[|past|] == step;
  }

  lemma TracedGrows(past: seq<Step>, step: Step, s: State)
    requires Traced(past, s)
    ensures Traced(past + [step], s)
  {
    TappedGrows(past, step);
    forall id, d | VerdictAt(s.remote, id, Verdict(d, Owner)) ensures Wanted(past + [step], id.run, d) {
      assert Wanted(past, id.run, d);
      if Deferred(past, id.run) { DeferredGrows(past, step, id.run); }
    }
    forall run | run in s.local ensures RowWanted(past + [step], run, s.local[run]) {
      assert RowWanted(past, run, s.local[run]);
      if Deferred(past, run) { DeferredGrows(past, step, run); }
    }
  }

  lemma DeferredGrows(past: seq<Step>, step: Step, run: string)
    requires Deferred(past, run)
    ensures Deferred(past + [step], run)
  {
    var at :| Tapped(past, run, Defer(at));
    TappedGrows(past, step);
    assert Tapped(past + [step], run, Defer(at));
  }

  lemma WantedBy(past: seq<Step>, run: string, intent: Intent)
    requires Tapped(past, run, intent)
    ensures Wanted(past, run, if intent.Approve? then Approved else Rejected)
  {
    if intent.Defer? { assert Tapped(past, run, Defer(intent.at)); }
  }

  lemma DecideTraced(past: seq<Step>, s: State, id: Id, intent: Intent, answer: Answer)
    requires Traced(past, s) && Deciding(id, intent) in s.tasks
    ensures Traced(past, DecideStep(s, id, intent, answer))
  {
    var t := DecideStep(s, id, intent, answer);
    assert TaskTraced(past, Deciding(id, intent));
    WantedBy(past, id.run, intent);
    forall k, d | VerdictAt(t.remote, k, Verdict(d, Owner)) ensures Wanted(past, k.run, d) {
      if k != id { assert VerdictAt(s.remote, k, Verdict(d, Owner)); }
    }
  }

  lemma WriteTraced(past: seq<Step>, s: State, id: Id, crash: bool)
    requires Traced(past, s) && id in s.progress && s.progress[id].Finishing?
    ensures Traced(past, WriteStep(s, id, s.progress[id].intent, crash))
  {
    var t := WriteStep(s, id, s.progress[id].intent, crash);
    assert PhaseTraced(past, id, s.progress[id]);
    RowWritten(past, s, id, s.progress[id].intent, crash);
    assert PhasesTraced(past, t.progress);
  }

  lemma RowWritten(past: seq<Step>, s: State, id: Id, intent: Intent, crash: bool)
    requires RowsTraced(past, s.local) && Tapped(past, id.run, intent)
    ensures RowsTraced(past, WriteStep(s, id, intent, crash).local)
  {
    WantedBy(past, id.run, intent);
    var t := WriteStep(s, id, intent, crash);
    forall run | run in t.local ensures RowWanted(past, run, t.local[run]) {
      if run != id.run { assert RowWanted(past, run, s.local[run]); }
    }
  }

  lemma RemoteTraced(past: seq<Step>, s: State, remote: Remote)
    requires Traced(past, s)
    requires forall id, d :: VerdictAt(remote, id, Verdict(d, Owner)) ==> VerdictAt(s.remote, id, Verdict(d, Owner))
    ensures Traced(past, s.(remote := remote))
  {
  }

  lemma RequestTraced(past: seq<Step>, s: State, run: string)
    requires Traced(past, s)
    ensures Traced(past, Apply(s, AgentRequests(run)))
  {
    RemoteTraced(past, s, Apply(s, AgentRequests(run)).remote);
  }

  lemma CheckpointTraced(past: seq<Step>, s: State, id: Id)
    requires Traced(past, s) && id in s.progress && s.progress[id].SystemDecide?
    ensures Traced(past, SystemDecideStep(s, id, s.progress[id].checkpoint))
  {
    var t := SystemDecideStep(s, id, s.progress[id].checkpoint);
    assert PhaseTraced(past, id, s.progress[id]);
    RemoteTraced(past, s, t.remote);
    assert t == s.(remote := t.remote).(progress := s.progress[id := Finishing(Approve)]);
  }

  lemma FetchTraced(past: seq<Step>, s: State, run: string, intent: Intent)
    requires Traced(past, s) && Fetching(run, intent) in s.tasks
    ensures Traced(past, FetchStep(s, run, intent))
  {
    assert TaskTraced(past, Fetching(run, intent));
  }

  /** A step other than a tap needs no tap of its own. */
  lemma StepTraced(past: seq<Step>, s: State, step: Step)
    requires Traced(past, s) && !step.Tap?
    ensures Traced(past, Apply(s, step))
  {
    match step
    case AgentRequests(run) => RequestTraced(past, s, run);
    case AgentDecides(id, d) => ElsewhereTraced(past, s, id, d);
    case FetchReturns(run, intent) => if Fetching(run, intent) in s.tasks { FetchTraced(past, s, run, intent); }
    case DecideArrives(id, intent, answer) =>
      if Deciding(id, intent) in s.tasks { DecideTraced(past, s, id, intent, answer); }
    case SystemFetchReturns(id) => SystemFetchTraced(past, s, id);
    case SystemDecides(id) => SystemDecidesTraced(past, s, id);
    case WriteLocal(id, crash) => WriteLocalTraced(past, s, id, crash);
    case _ => OtherTraced(past, s, step);
  }

  lemma SystemDecidesTraced(past: seq<Step>, s: State, id: Id)
    requires Traced(past, s)
    ensures Traced(past, Apply(s, SystemDecides(id)))
  {
    if id in s.progress && s.progress[id].SystemDecide? {
      CheckpointTraced(past, s, id);
    }
    LateStepsAre(s, id, false);
  }

  /** The second half of a call, as steps. */
  lemma LateStepsAre(s: State, id: Id, crash: bool)
    ensures Apply(s, SystemDecides(id)) == if id in s.progress && s.progress[id].SystemDecide?
                                           then SystemDecideStep(s, id, s.progress[id].checkpoint) else s
    ensures Apply(s, WriteLocal(id, crash)) == if id in s.progress && s.progress[id].Finishing?
                                               then WriteStep(s, id, s.progress[id].intent, crash) else s
  {
  }

  lemma WriteLocalTraced(past: seq<Step>, s: State, id: Id, crash: bool)
    requires Traced(past, s)
    ensures Traced(past, Apply(s, WriteLocal(id, crash)))
  {
    if id in s.progress && s.progress[id].Finishing? {
      WriteTraced(past, s, id, crash);
    }
    LateStepsAre(s, id, crash);
  }

  lemma ElsewhereTraced(past: seq<Step>, s: State, id: Id, d: Decision)
    requires Traced(past, s)
    ensures Traced(past, Apply(s, AgentDecides(id, d)))
  {
    if OpenAt(s.remote, id) { RemoteTraced(past, s, Apply(s, AgentDecides(id, d)).remote); }
  }

  lemma SystemFetchTraced(past: seq<Step>, s: State, id: Id)
    requires Traced(past, s)
    ensures Traced(past, Apply(s, SystemFetchReturns(id)))
  {
    if id in s.progress && s.progress[id].SystemFetch? {
      assert PhaseTraced(past, id, s.progress[id]);
      ProgressTraced(past, s, id, SystemFetchStep(s, id).progress[id]);
    }
  }

  lemma ProgressTraced(past: seq<Step>, s: State, id: Id, p: Phase)
    requires Traced(past, s) && PhaseTraced(past, id, p)
    ensures Traced(past, s.(progress := s.progress[id := p]))
  {
  }

  lemma OtherTraced(past: seq<Step>, s: State, step: Step)
    requires Traced(past, s)
    requires step.Notify? || step.CallFails? || step.ReplyLost? || !BridgeStep(step)
    ensures Traced(past, Apply(s, step))
  {
  }

  lemma TapTraced(past: seq<Step>, s: State, run: string, intent: Intent)
    requires Traced(past, s)
    ensures Traced(past + [Tap(run, intent)], Apply(s, Tap(run, intent)))
  {
    TracedGrows(past, Tap(run, intent), s);
    TappedGrows(past, Tap(run, intent));
  }

  lemma {:induction false} RunTraced(past: seq<Step>, s: State, steps: seq<Step>)
    requires Traced(past, s)
    ensures Traced(past + steps, Run(s, steps))
    decreases |steps|
  {
    if steps == [] {
      assert past + steps == past;
    } else {
      if steps[0].Tap? {
        TapTraced(past, s, steps[0].run, steps[0].intent);
      } else {
        TracedGrows(past, steps[0], s);
        StepTraced(past + [steps[0]], s, steps[0]);
      }
      assert past + [steps[0]] + steps[1..] == past + steps;
      RunTraced(past + [steps[0]], Apply(s, steps[0]), steps[1..]);
    }
  }

  /** Over all runs: an approval of the owner comes from a pressed Approve button of that
      run, a rejection from Reject or from a deferral, and a local row says approved,
      rejected or scheduled only after the button that means it. */
  lemma EveryDecisionWasTapped(steps: seq<Step>, id: Id, run: string)
    ensures var s := Run(EMPTY, steps);
            && (VerdictAt(s.remote, id, Verdict(Approved, Owner)) ==> Tapped(steps, id.run, Approve))
            && (VerdictAt(s.remote, id, Verdict(Rejected, Owner)) ==>
                  Tapped(steps, id.run, Reject) || Deferred(steps, id.run))
            && (run in s.local && s.local[run] == Decided(Approved) ==> Tapped(steps, run, Approve))
            && (run in s.local && s.local[run] == Decided(Rejected) ==>
                  Tapped(steps, run, Reject) || Deferred(steps, run))
            && (run in s.local && s.local[run] == Scheduled ==> Deferred(steps, run))
  {
    RunTraced([], EMPTY, steps);
    assert [] + steps == steps;
    var s := Run(EMPTY, steps);
    assert run in s.local ==> RowWanted(steps, run, s.local[run]);
  }
}
