/** The first-generation bridge: owner decisions with the automatic system checkpoint,
    and deferral, where AgentOS is told to reject and a scheduled publisher posts the
    draft later by itself. */
module LegacyBridge {
  import opened Common

  datatype Decision = Approved | Rejected

  datatype Actor = Owner | System | Elsewhere

  datatype Verdict = Verdict(decision: Decision, actor: Actor)

  type Remote = map<string, seq<Option<Verdict>>>

  datatype Id = Id(run: string, index: nat)

  datatype Intent = Approve | Reject | Defer(at: int)

  datatype Local = Pending | Decided(decision: Decision) | Scheduled

  datatype ItemStatus = Waiting | Publishing | Published | Failed

  /** A row of the scheduled publishes; `posts` counts its publish requests. */
  datatype Item = Item(source: Id, at: int, status: ItemStatus, posts: nat)

  /** Calls whose decision AgentOS has taken, by the approval decided. */
  datatype Phase =
    | SystemFetch
    | SystemDecide(checkpoint: Id)
    | Finishing(intent: Intent)

  datatype Task = Fetching(run: string, intent: Intent) | Deciding(id: Id, intent: Intent)

  /** The one publisher pass: what it listed and has not begun, and the item in hand,
      which is marked as publishing and then posted. */
  datatype Pass = Idle | Pass(queue: seq<nat>, posting: Option<nat>)

  datatype State = State(
    remote: Remote, local: map<string, Local>, tasks: multiset<Task>, progress: map<Id, Phase>,
    items: map<nat, Item>, nextItem: nat, pass: Pass, deferred: set<Id>)

  /** What AgentOS answers to a decision. */
  datatype Answer = Lost | Done | StillWaiting

  datatype PostOutcome = PostPublished | PostFailed | NotAnObject

  datatype Step =
    | AgentRequests(run: string)
    | AgentDecides(id: Id, decision: Decision)
    | Notify(run: string)
    | Tap(run: string, intent: Intent)
    | FetchReturns(run: string, intent: Intent)
    | DecideArrives(id: Id, intent: Intent, answer: Answer)
    | SystemFetchReturns(id: Id)
    | SystemDecides(id: Id)
    | WriteLocal(id: Id, crash: bool)
    | CallFails(task: Task)
    | ReplyLost(id: Id)
    | StartPass(listing: seq<nat>, now: int)
    | BeginItem
    | Post(builds: bool)
    | PostReturns(outcome: PostOutcome)
    | EndPass
    | Restart

  const LIMIT := 20

  function DecisionOf(intent: Intent): Decision { if intent.Approve? then Approved else Rejected }

  predicate OpenAt(r: Remote, id: Id) {
    id.run in r && id.index < |r[id.run]| && r[id.run][id.index].None?
  }

  predicate VerdictAt(r: Remote, id: Id, v: Verdict) {
    id.run in r && id.index < |r[id.run]| && r[id.run][id.index] == Some(v)
  }

  function Decide(r: Remote, id: Id, v: Verdict): Remote
    requires OpenAt(r, id)
  {
    r[id.run := r[id.run][id.index := Some(v)]]
  }

  function Approvals(r: Remote, run: string): seq<Option<Verdict>> {
    if run in r then r[run] else []
  }

  /** The publisher's part of the state. */
  predicate SameItems(s: State, t: State) {
    t.items == s.items && t.nextItem == s.nextItem && t.pass == s.pass && t.deferred == s.deferred
  }

  /** The bridge's part. */
  predicate SameBridge(s: State, t: State) {
    t.remote == s.remote && t.local == s.local && t.progress == s.progress
  }

  function DecideStep(s: State, id: Id, intent: Intent, answer: Answer): (r: State)
    ensures SameItems(s, r)
  {
    var t := s.(tasks := s.tasks - multiset{Deciding(id, intent)});
    if !OpenAt(s.remote, id) then t
    else
      var phase := if intent.Approve? && answer.StillWaiting? then SystemFetch else Finishing(intent);
      t.(remote := Decide(s.remote, id, Verdict(DecisionOf(intent), Owner)),
         progress := if answer.Lost? then s.progress else s.progress[id := phase])
  }

  function FetchStep(s: State, run: string, intent: Intent): (r: State)
    ensures SameItems(s, r) && SameBridge(s, r)
  {
    var rest := s.tasks - multiset{Fetching(run, intent)};
    match FirstNone(Approvals(s.remote, run))
    case None => s.(tasks := rest)
    case Some(i) => s.(tasks := rest + multiset{Deciding(Id(run, i), intent)})
  }

  /** The checkpoint lookup runs in the same run; finding none skips to the end. */
  function SystemFetchStep(s: State, id: Id): (r: State)
    ensures SameItems(s, r) && r.remote == s.remote
  {
    match FirstNone(Approvals(s.remote, id.run))
    case None => s.(progress := s.progress[id := Finishing(Approve)])
    case Some(i) => s.(progress := s.progress[id := SystemDecide(Id(id.run, i))])
  }

  /** A failure to approve the checkpoint is swallowed. */
  function SystemDecideStep(s: State, id: Id, checkpoint: Id): (r: State)
    ensures SameItems(s, r) && r.local == s.local
  {
    s.(progress := s.progress[id := Finishing(Approve)],
       remote := if !OpenAt(s.remote, checkpoint) then s.remote
                 else Decide(s.remote, checkpoint, Verdict(Approved, System)))
  }

  /** The local decision, then for a deferral the scheduled item, unless a crash falls
      between the two. */
  function WriteStep(s: State, id: Id, intent: Intent, crash: bool): State {
    var row := match intent case Defer(_) => Scheduled case _ => Decided(DecisionOf(intent));
    var t := s.(progress := s.progress - {id}, local := if id.run in s.local then s.local[id.run := row] else s.local);
    if intent.Defer? && !crash then
      t.(items := t.items[t.nextItem := Item(id, intent.at, Waiting, 0)],
         nextItem := t.nextItem + 1, deferred := t.deferred + {id})
    else t
  }

  predicate DueListing(items: map<nat, Item>, listing: seq<nat>, now: int) {
    && |listing| <= LIMIT
    && (forall i :: 0 <= i < |listing| ==>
          listing[i] in items && items[listing[i]].status == Waiting && items[listing[i]].at <= now)
    && (forall i, j :: 0 <= i < j < |listing| ==> listing[i] != listing[j])
  }

  function SetStatus(items: map<nat, Item>, k: nat, status: ItemStatus, posts: nat): map<nat, Item>
    requires k in items
  {
    items[k := items[k].(status := status, posts := items[k].posts + posts)]
  }

  /** Mark the next item as publishing. */
  function BeginStep(s: State): (r: State)
    requires s.pass.Pass? && s.pass.queue != [] && s.pass.posting.None? && s.pass.queue[0] in s.items
    ensures SameBridge(s, r)
  {
    var k := s.pass.queue[0];
    s.(items := SetStatus(s.items, k, Publishing, 0), pass := Pass(s.pass.queue[1..], Some(k)))
  }

  /** The item in hand, with as many publish requests so far. */
  predicate InHand(s: State, k: nat, posts: nat) {
    s.pass.Pass? && s.pass.posting == Some(k) && k in s.items && s.items[k].posts == posts
  }

  /** Build the request and post it. A request that cannot be built fails the item
      without a post. */
  function PostStep(s: State, k: nat, builds: bool): (r: State)
    requires InHand(s, k, 0)
    ensures SameBridge(s, r)
  {
    if builds then s.(items := SetStatus(s.items, k, Publishing, 1))
    else s.(items := SetStatus(s.items, k, Failed, 0), pass := Pass(s.pass.queue, None))
  }

  /** An answer that is not a JSON object raises past the handler: the item keeps its
      status and the pass ends. */
  function ReturnStep(s: State, k: nat, outcome: PostOutcome): (r: State)
    requires InHand(s, k, 1)
    ensures SameBridge(s, r)
  {
    match outcome
    case NotAnObject => s.(pass := Idle)
    case PostPublished => s.(items := SetStatus(s.items, k, Published, 0), pass := Pass(s.pass.queue, None))
    case PostFailed => s.(items := SetStatus(s.items, k, Failed, 0), pass := Pass(s.pass.queue, None))
  }

  predicate BridgeStep(step: Step) {
    !(step.StartPass? || step.BeginItem? || step.Post? || step.PostReturns? || step.EndPass? || step.Restart?)
  }

  function ApplyBridge(s: State, step: Step): State
    requires BridgeStep(step)
  {
    match step
    case AgentRequests(run) => s.(remote := s.remote[run := Approvals(s.remote, run) + [None]])
    case AgentDecides(id, d) =>
      if OpenAt(s.remote, id) then s.(remote := Decide(s.remote, id, Verdict(d, Elsewhere))) else s
    case Notify(run) => s.(local := if run in s.local then s.local else s.local[run := Pending])
    case Tap(run, intent) => s.(tasks := s.tasks + multiset{Fetching(run, intent)})
    case FetchReturns(run, intent) => if Fetching(run, intent) in s.tasks then FetchStep(s, run, intent) else s
    case DecideArrives(id, intent, answer) =>
      if Deciding(id, intent) in s.tasks then DecideStep(s, id, intent, answer) else s
    case SystemFetchReturns(id) => if id in s.progress && s.progress[id].SystemFetch? then SystemFetchStep(s, id) else s
    case SystemDecides(id) =>
      if id in s.progress && s.progress[id].SystemDecide? then SystemDecideStep(s, id, s.progress[id].checkpoint) else s
    case WriteLocal(id, crash) =>
      if id in s.progress && s.progress[id].Finishing? then WriteStep(s, id, s.progress[id].intent, crash) else s
    case CallFails(task) => s.(tasks := s.tasks - multiset{task})
    case ReplyLost(id) => s.(progress := s.progress - {id})
  }

  function ApplyPublisher(s: State, step: Step): State
    requires !BridgeStep(step)
  {
    match step
    case StartPass(listing, now) =>
      if s.pass.Idle? && DueListing(s.items, listing, now) then s.(pass := Pass(listing, None)) else s
    case BeginItem =>
      if s.pass.Pass? && s.pass.queue != [] && s.pass.posting.None? && s.pass.queue[0] in s.items
      then BeginStep(s) else s
    case Post(builds) =>
      if s.pass.Pass? && s.pass.posting.Some? && InHand(s, s.pass.posting.value, 0)
      then PostStep(s, s.pass.posting.value, builds) else s
    case PostReturns(outcome) =>
      if s.pass.Pass? && s.pass.posting.Some? && InHand(s, s.pass.posting.value, 1)
      then ReturnStep(s, s.pass.posting.value, outcome) else s
    case EndPass => if s.pass.Pass? && s.pass.posting.None? then s.(pass := Idle) else s
    case Restart => s.(tasks := multiset{}, progress := map[], pass := Idle)
  }

  function Apply(s: State, step: Step): State {
    if BridgeStep(step) then ApplyBridge(s, step) else ApplyPublisher(s, step)
  }

  function Run(s: State, steps: seq<Step>): State
    decreases |steps|
  {
    if steps == [] then s else Run(Apply(s, steps[0]), steps[1..])
  }

  const EMPTY := State(map[], map[], multiset{}, map[], map[], 0, Idle, {})

  // ── The bridge invariant ────────────────────────────────────────────────

  ghost predicate OwnerSaid(r: Remote, run: string, d: Decision) {
    exists i: nat :: VerdictAt(r, Id(run, i), Verdict(d, Owner))
  }

  /** Local rows report what AgentOS accepted; a scheduled row, an accepted rejection. */
  ghost predicate RowOk(r: Remote, run: string, row: Local) {
    match row
    case Pending => true
    case Decided(d) => OwnerSaid(r, run, d)
    case Scheduled => OwnerSaid(r, run, Rejected)
  }

  predicate PhaseOk(r: Remote, id: Id, p: Phase) {
    match p
    case Finishing(intent) => VerdictAt(r, id, Verdict(DecisionOf(intent), Owner))
    case SystemDecide(checkpoint) => checkpoint.run == id.run && VerdictAt(r, id, Verdict(Approved, Owner))
    case SystemFetch => VerdictAt(r, id, Verdict(Approved, Owner))
  }

  ghost predicate CheckpointOk(r: Remote, id: Id) {
    VerdictAt(r, id, Verdict(Approved, System)) ==> OwnerSaid(r, id.run, Approved)
  }

  ghost predicate BridgeInv(s: State) {
    && (forall run :: run in s.local ==> RowOk(s.remote, run, s.local[run]))
    && (forall id :: id in s.progress ==> PhaseOk(s.remote, id, s.progress[id]))
    && (forall id :: CheckpointOk(s.remote, id))
  }

  ghost predicate Grows(a: Remote, b: Remote) {
    && (forall id, v :: VerdictAt(a, id, v) ==> VerdictAt(b, id, v))
    && (forall run :: run in a ==> run in b && |a[run]| <= |b[run]|)
  }

  lemma SaidGrows(a: Remote, b: Remote, run: string, d: Decision)
    requires Grows(a, b) && OwnerSaid(a, run, d)
    ensures OwnerSaid(b, run, d)
  {
  }

  lemma RemoteMoves(s: State, r: Remote)
    requires BridgeInv(s) && Grows(s.remote, r) && forall id :: CheckpointOk(r, id)
    ensures BridgeInv(s.(remote := r))
  {
  }

  lemma DecideGrows(r: Remote, id: Id, v: Verdict)
    requires OpenAt(r, id)
    ensures Grows(r, Decide(r, id, v)) && VerdictAt(Decide(r, id, v), id, v)
  {
  }

  /** A verdict is added; a system verdict only where the owner approved. */
  lemma DecideInv(s: State, id: Id, v: Verdict)
    requires BridgeInv(s) && OpenAt(s.remote, id)
    requires v == Verdict(Approved, System) ==> OwnerSaid(s.remote, id.run, Approved)
    ensures BridgeInv(s.(remote := Decide(s.remote, id, v)))
  {
    var r := Decide(s.remote, id, v);
    DecideGrows(s.remote, id, v);
    forall k ensures CheckpointOk(r, k) {
      assert CheckpointOk(s.remote, k);
      if OwnerSaid(s.remote, k.run, Approved) { SaidGrows(s.remote, r, k.run, Approved); }
    }
    RemoteMoves(s, r);
  }

  lemma ProgressInv(s: State, id: Id, p: Phase)
    requires BridgeInv(s) && PhaseOk(s.remote, id, p)
    ensures BridgeInv(s.(progress := s.progress[id := p]))
  {
  }

  lemma RequestInv(s: State, run: string)
    requires BridgeInv(s)
    ensures BridgeInv(s.(remote := s.remote[run := Approvals(s.remote, run) + [None]]))
  {
    var r := s.remote[run := Approvals(s.remote, run) + [None]];
    assert Grows(s.remote, r);
    forall k ensures CheckpointOk(r, k) {
      assert CheckpointOk(s.remote, k);
      if OwnerSaid(s.remote, k.run, Approved) { SaidGrows(s.remote, r, k.run, Approved); }
    }
    RemoteMoves(s, r);
  }

  lemma ArrivesInv(s: State, id: Id, intent: Intent, answer: Answer)
    requires BridgeInv(s)
    ensures BridgeInv(DecideStep(s, id, intent, answer))
  {
    if OpenAt(s.remote, id) {
      var v := Verdict(DecisionOf(intent), Owner);
      DecideInv(s, id, v);
      DecideGrows(s.remote, id, v);
      var moved := s.(remote := Decide(s.remote, id, v));
      var phase := if intent.Approve? && answer.StillWaiting? then SystemFetch else Finishing(intent);
      ProgressInv(moved, id, phase);
    }
  }

  lemma CheckpointInv(s: State, id: Id)
    requires BridgeInv(s) && id in s.progress && s.progress[id].SystemDecide?
    ensures BridgeInv(SystemDecideStep(s, id, s.progress[id].checkpoint))
  {
    var checkpoint := s.progress[id].checkpoint;
    assert PhaseOk(s.remote, id, s.progress[id]);
    assert VerdictAt(s.remote, Id(id.run, id.index), Verdict(Approved, Owner));
    var moved := s;
    if OpenAt(s.remote, checkpoint) {
      DecideInv(s, checkpoint, Verdict(Approved, System));
      DecideGrows(s.remote, checkpoint, Verdict(Approved, System));
      moved := s.(remote := Decide(s.remote, checkpoint, Verdict(Approved, System)));
    }
    ProgressInv(moved, id, Finishing(Approve));
  }

  lemma WriteInv(s: State, id: Id, crash: bool)
    requires BridgeInv(s) && id in s.progress && s.progress[id].Finishing?
    ensures BridgeInv(WriteStep(s, id, s.progress[id].intent, crash))
  {
  }

  lemma SystemFetchInv(s: State, id: Id)
    requires BridgeInv(s) && id in s.progress && s.progress[id].SystemFetch?
    ensures BridgeInv(SystemFetchStep(s, id))
  {
  }

  lemma PublisherKeepsBridge(s: State, step: Step)
    requires BridgeInv(s) && !BridgeStep(step)
    ensures BridgeInv(Apply(s, step)) && Apply(s, step).remote == s.remote
  {
    var t := Apply(s, step);
    assert t.remote == s.remote && t.local == s.local && (t.progress == s.progress || t.progress == map[]);
  }

  lemma BridgeStepInv(s: State, step: Step)
    requires BridgeInv(s)
    ensures BridgeInv(Apply(s, step))
  {
    match step
    case AgentRequests(run) => RequestInv(s, run);
    case AgentDecides(id, d) => if OpenAt(s.remote, id) { DecideInv(s, id, Verdict(d, Elsewhere)); }
    case DecideArrives(id, intent, answer) => if Deciding(id, intent) in s.tasks { ArrivesInv(s, id, intent, answer); }
    case SystemFetchReturns(id) => if id in s.progress && s.progress[id].SystemFetch? { SystemFetchInv(s, id); }
    case SystemDecides(id) => if id in s.progress && s.progress[id].SystemDecide? { CheckpointInv(s, id); }
    case WriteLocal(id, crash) => if id in s.progress && s.progress[id].Finishing? { WriteInv(s, id, crash); }
    case _ => if !BridgeStep(step) { PublisherKeepsBridge(s, step); }
  }

  // ── The publisher invariant ─────────────────────────────────────────────

  predicate ItemOk(r: Remote, k: nat, item: Item, nextItem: nat) {
    && k < nextItem && item.posts <= 1
    && (item.status == Waiting ==> item.posts == 0)
    && (item.status == Published ==> item.posts == 1)
    && VerdictAt(r, item.source, Verdict(Rejected, Owner))
  }

  ghost predicate SourcesOk(s: State) {
    && (forall k :: k in s.items ==> s.items[k].source in s.deferred)
    && (forall k, l :: k in s.items && l in s.items && s.items[k].source == s.items[l].source ==> k == l)
    && (forall id :: id in s.deferred ==> id !in s.progress && VerdictAt(s.remote, id, Verdict(Rejected, Owner)))
  }

  predicate PassOk(s: State) {
    s.pass.Pass? ==>
      && (forall i :: 0 <= i < |s.pass.queue| ==>
            s.pass.queue[i] in s.items && s.items[s.pass.queue[i]].status == Waiting)
      && (forall i, j :: 0 <= i < j < |s.pass.queue| ==> s.pass.queue[i] != s.pass.queue[j])
      && (s.pass.posting.Some? ==>
            && s.pass.posting.value in s.items
            && s.items[s.pass.posting.value].status == Publishing && s.pass.posting.value !in s.pass.queue)
  }

  ghost predicate ItemsOk(s: State) {
    forall k :: k in s.items ==> ItemOk(s.remote, k, s.items[k], s.nextItem)
  }

  ghost predicate Inv(s: State) {
    BridgeInv(s) && ItemsOk(s) && SourcesOk(s) && PassOk(s)
  }

  /** The bridge moves approvals and calls; items stay, old verdicts stay. */
  lemma BridgeMoves(s: State, t: State)
    requires Inv(s) && BridgeInv(t) && Grows(s.remote, t.remote)
    requires t.items == s.items && t.nextItem == s.nextItem && t.pass == s.pass && t.deferred == s.deferred
    requires forall id :: id in t.progress ==> id in s.progress || OpenAt(s.remote, id)
    ensures Inv(t)
  {
  }

  lemma GrowsSelf(r: Remote)
    ensures Grows(r, r)
  {
  }

  lemma WriteItem(s: State, id: Id, crash: bool)
    requires Inv(s) && id in s.progress && s.progress[id].Finishing?
    ensures Inv(WriteStep(s, id, s.progress[id].intent, crash))
  {
    var intent := s.progress[id].intent;
    var t := WriteStep(s, id, intent, crash);
    WriteInv(s, id, crash);
    assert PhaseOk(s.remote, id, s.progress[id]);
    GrowsSelf(s.remote);
    var bare := s.(progress := t.progress, local := t.local);
    BridgeMoves(s, bare);
    if intent.Defer? && !crash {
      assert forall k :: k in t.items && k != s.nextItem ==> t.items[k] == bare.items[k];
      assert forall k :: k in bare.items ==> k < s.nextItem && bare.items[k].source != id;
      PassKept(bare, t);
    }
  }

  lemma PassKept(s: State, t: State)
    requires PassOk(s) && t.pass == s.pass
    requires forall k :: k in s.items ==> k in t.items && t.items[k] == s.items[k]
    ensures PassOk(t)
  {
  }

  lemma RemoteGrows(s: State, step: Step)
    requires BridgeStep(step)
    ensures Grows(s.remote, Apply(s, step).remote)
  {
    match step
    case AgentRequests(run) =>
    case AgentDecides(id, d) => if OpenAt(s.remote, id) { DecideGrows(s.remote, id, Verdict(d, Elsewhere)); }
    case DecideArrives(id, intent, _) =>
      if OpenAt(s.remote, id) { DecideGrows(s.remote, id, Verdict(DecisionOf(intent), Owner)); }
    case SystemDecides(id) =>
      if id in s.progress && s.progress[id].SystemDecide? && OpenAt(s.remote, s.progress[id].checkpoint) {
        DecideGrows(s.remote, s.progress[id].checkpoint, Verdict(Approved, System));
      }
    case _ => GrowsSelf(s.remote);
  }

  /** Only an accepted decision starts a call's second half. */
  lemma ProgressStarts(s: State, step: Step)
    requires BridgeStep(step)
    ensures forall id :: id in Apply(s, step).progress ==> id in s.progress || OpenAt(s.remote, id)
  {
  }

  lemma ItemsUntouched(s: State, step: Step)
    requires BridgeStep(step) && !step.WriteLocal?
    ensures SameItems(s, Apply(s, step))
  {
    match step
    case FetchReturns(run, intent) =>
    case DecideArrives(id, intent, answer) =>
    case SystemFetchReturns(id) =>
    case SystemDecides(id) =>
    case _ =>
  }

  lemma MovesAreBridge(s: State, step: Step)
    requires Inv(s) && BridgeStep(step) && !step.WriteLocal?
    ensures Inv(Apply(s, step))
  {
    BridgeStepInv(s, step);
    RemoteGrows(s, step);
    ProgressStarts(s, step);
    ItemsUntouched(s, step);
    BridgeMoves(s, Apply(s, step));
  }

  /** One item changes status. */
  lemma StatusInv(s: State, k: nat, status: ItemStatus, posts: nat, pass: Pass)
    requires Inv(s) && k in s.items
    requires ItemOk(s.remote, k, s.items[k].(status := status, posts := s.items[k].posts + posts), s.nextItem)
    requires PassOk(s.(items := SetStatus(s.items, k, status, posts), pass := pass))
    ensures Inv(s.(items := SetStatus(s.items, k, status, posts), pass := pass))
  {
    var t := s.(items := SetStatus(s.items, k, status, posts), pass := pass);
    assert forall j :: j in t.items ==> t.items[j].source == s.items[j].source;
    assert BridgeInv(t);
  }

  lemma BeginInv(s: State)
    requires Inv(s) && s.pass.Pass? && s.pass.queue != [] && s.pass.posting.None? && s.pass.queue[0] in s.items
    ensures Inv(BeginStep(s))
  {
    var k := s.pass.queue[0];
    assert ItemOk(s.remote, k, s.items[k], s.nextItem);
    StatusInv(s, k, Publishing, 0, Pass(s.pass.queue[1..], Some(k)));
  }

  lemma PostInv(s: State, k: nat, builds: bool)
    requires Inv(s) && InHand(s, k, 0)
    ensures Inv(PostStep(s, k, builds))
  {
    assert ItemOk(s.remote, k, s.items[k], s.nextItem);
    if builds { StatusInv(s, k, Publishing, 1, s.pass); } else { StatusInv(s, k, Failed, 0, Pass(s.pass.queue, None)); }
  }

  lemma ReturnInv(s: State, k: nat, outcome: PostOutcome)
    requires Inv(s) && InHand(s, k, 1)
    ensures Inv(ReturnStep(s, k, outcome))
  {
    assert ItemOk(s.remote, k, s.items[k], s.nextItem);
    match outcome
    case NotAnObject => assert BridgeInv(s.(pass := Idle));
    case PostPublished => StatusInv(s, k, Published, 0, Pass(s.pass.queue, None));
    case PostFailed => StatusInv(s, k, Failed, 0, Pass(s.pass.queue, None));
  }

  lemma PublisherStepInv(s: State, step: Step)
    requires Inv(s) && !BridgeStep(step)
    ensures Inv(Apply(s, step))
  {
    PublisherKeepsBridge(s, step);
    match step
    case StartPass(listing, now) =>
    case BeginItem =>
      if s.pass.Pass? && s.pass.queue != [] && s.pass.posting.None? && s.pass.queue[0] in s.items { BeginInv(s); }
    case Post(builds) =>
      if s.pass.Pass? && s.pass.posting.Some? && InHand(s, s.pass.posting.value, 0) {
        PostInv(s, s.pass.posting.value, builds);
      }
    case PostReturns(outcome) =>
      if s.pass.Pass? && s.pass.posting.Some? && InHand(s, s.pass.posting.value, 1) {
        ReturnInv(s, s.pass.posting.value, outcome);
      }
    case EndPass =>
    case Restart =>
  }

  lemma StepInv(s: State, step: Step)
    requires Inv(s)
    ensures Inv(Apply(s, step))
  {
    if !BridgeStep(step) { PublisherStepInv(s, step); }
    else if step.WriteLocal? {
      if step.id in s.progress && s.progress[step.id].Finishing? { WriteItem(s, step.id, step.crash); }
    } else { MovesAreBridge(s, step); }
  }

  lemma {:induction false} RunInv(s: State, steps: seq<Step>)
    requires Inv(s)
    ensures Inv(Run(s, steps))
    decreases |steps|
  {
    if steps != [] {
      StepInv(s, steps[0]);
      RunInv(Apply(s, steps[0]), steps[1..]);
    }
  }

  // ── What owners can rely on ─────────────────────────────────────────────

  /** Every deferral yields at most one item, every item at most one publish request,
      and only after AgentOS accepted the owner's rejection of that approval. */
  lemma DeferredOnce(steps: seq<Step>, k: nat, l: nat)
    requires k in Run(EMPTY, steps).items && l in Run(EMPTY, steps).items
    ensures var s := Run(EMPTY, steps);
            && s.items[k].posts <= 1
            && (k != l ==> s.items[k].source != s.items[l].source)
            && VerdictAt(s.remote, s.items[k].source, Verdict(Rejected, Owner))
  {
    RunInv(EMPTY, steps);
    assert ItemOk(Run(EMPTY, steps).remote, k, Run(EMPTY, steps).items[k], Run(EMPTY, steps).nextItem);
  }

  /** A checkpoint is approved by the system only in a run its owner approved; a row is
      locally scheduled only if AgentOS holds an accepted rejection of its run. */
  lemma LocalAndCheckpoints(steps: seq<Step>, id: Id, run: string)
    ensures var s := Run(EMPTY, steps);
            && (VerdictAt(s.remote, id, Verdict(Approved, System)) ==> OwnerSaid(s.remote, id.run, Approved))
            && (run in s.local && s.local[run].Scheduled? ==> OwnerSaid(s.remote, run, Rejected))
            && (run in s.local && s.local[run].Decided? ==> OwnerSaid(s.remote, run, s.local[run].decision))
  {
    RunInv(EMPTY, steps);
    assert CheckpointOk(Run(EMPTY, steps).remote, id);
    assert run in Run(EMPTY, steps).local ==> RowOk(Run(EMPTY, steps).remote, run, Run(EMPTY, steps).local[run]);
  }

  /** The handler of the item in hand reaches its last write: the request could not be
      built, or its answer is a JSON object. */
  predicate Finishes(s: State, step: Step, k: nat) {
    || (step == Post(false) && InHand(s, k, 0))
    || (step.PostReturns? && !step.outcome.NotAnObject? && InHand(s, k, 1))
  }

  predicate GetsThrough(s: State, steps: seq<Step>, k: nat)
    decreases |steps|
  {
    steps != [] && (Finishes(s, steps[0], k) || GetsThrough(Apply(s, steps[0]), steps[1..], k))
  }

  /** Begun and not settled: still in hand, or stuck. */
  predicate Begun(s: State, k: nat) {
    k in s.items && s.items[k].status == Publishing && (Stuck(s, k) || (s.pass.Pass? && s.pass.posting == Some(k)))
  }

  /** What one step does to the item in hand: settled by its last write, left in hand, or
      stuck as publishing, which only an unreadable answer or a restart does. */
  lemma InHandStep(s: State, step: Step, k: nat)
    requires Inv(s) && s.pass.Pass? && s.pass.posting == Some(k)
    ensures var t := Apply(s, step);
            && k in t.items
            && (Finishes(s, step, k) <==> t.items[k].status in {Published, Failed})
            && (!Finishes(s, step, k) ==> Begun(t, k))
            && (Stuck(t, k) <==> step.Restart? || (step == PostReturns(NotAnObject) && InHand(s, k, 1)))
  {
    if BridgeStep(step) { InHandOverBridge(s, step, k); } else { InHandPublisher(s, step, k); }
  }

  lemma InHandOverBridge(s: State, step: Step, k: nat)
    requires Inv(s) && s.pass.Pass? && s.pass.posting == Some(k) && BridgeStep(step)
    ensures var t := Apply(s, step); k in t.items && t.items[k] == s.items[k] && t.pass == s.pass
  {
    assert ItemOk(s.remote, k, s.items[k], s.nextItem);
    BridgeLeavesItem(s, step, k);
  }

  lemma InHandPublisher(s: State, step: Step, k: nat)
    requires Inv(s) && s.pass.Pass? && s.pass.posting == Some(k) && !BridgeStep(step)
    ensures var t := ApplyPublisher(s, step);
            && k in t.items
            && (Finishes(s, step, k) <==> t.items[k].status in {Published, Failed})
            && (!Finishes(s, step, k) ==> Begun(t, k))
            && (Stuck(t, k) <==> step.Restart? || (step == PostReturns(NotAnObject) && InHand(s, k, 1)))
  {
    assert ItemOk(s.remote, k, s.items[k], s.nextItem);
    if step.Post? && InHand(s, k, 0) {
      InHandPosts(s, k, step.builds);
    } else if step.PostReturns? && InHand(s, k, 1) {
      InHandReturns(s, k, step.outcome);
    } else if !step.Restart? {
      assert ApplyPublisher(s, step) == s;
    }
  }

  lemma InHandPosts(s: State, k: nat, builds: bool)
    requires Inv(s) && InHand(s, k, 0)
    ensures var t := PostStep(s, k, builds);
            k in t.items && (if builds then Begun(t, k) && !Stuck(t, k) else t.items[k].status == Failed)
  {
  }

  lemma InHandReturns(s: State, k: nat, outcome: PostOutcome)
    requires Inv(s) && InHand(s, k, 1)
    ensures var t := ReturnStep(s, k, outcome);
            k in t.items && (if outcome.NotAnObject? then Stuck(t, k) else t.items[k].status in {Published, Failed})
  {
  }

  lemma {:induction false} StuckForever(s: State, steps: seq<Step>, k: nat)
    requires Inv(s) && Stuck(s, k)
    ensures !GetsThrough(s, steps, k)
    decreases |steps|
  {
    if steps != [] {
      StepInv(s, steps[0]);
      SettledStep(s, steps[0], k);
      StuckForever(Apply(s, steps[0]), steps[1..], k);
    }
  }

  /** Over all runs, crashes included: a begun item ends published or failed exactly if
      its handler reaches its last write; otherwise it still says publishing. */
  lemma {:induction false} BegunEndsExact(s: State, steps: seq<Step>, k: nat)
    requires Inv(s) && s.pass.Pass? && s.pass.posting == Some(k)
    ensures var t := Run(s, steps);
            && k in t.items && t.items[k].status in {Publishing, Published, Failed}
            && (t.items[k].status in {Published, Failed} <==> GetsThrough(s, steps, k))
    decreases |steps|
  {
    if steps != [] {
      var t := Apply(s, steps[0]);
      StepInv(s, steps[0]);
      InHandStep(s, steps[0], k);
      if Finishes(s, steps[0], k) {
        SettledForever(t, steps[1..], k);
      } else if Stuck(t, k) {
        StuckForever(t, steps[1..], k);
        SettledForever(t, steps[1..], k);
      } else {
        BegunEndsExact(t, steps[1..], k);
      }
    }
  }

  /** Marked as publishing with nobody posting it. */
  predicate Stuck(s: State, k: nat) {
    && k in s.items && s.items[k].status == Publishing
    && (s.pass.Pass? ==> s.pass.posting != Some(k) && k !in s.pass.queue)
  }

  predicate Settled(s: State, k: nat) {
    k in s.items && (s.items[k].status in {Published, Failed} || Stuck(s, k))
  }

  lemma SettledStep(s: State, step: Step, k: nat)
    requires Inv(s) && Settled(s, k)
    ensures Settled(Apply(s, step), k) && Apply(s, step).items[k] == s.items[k]
  {
    assert s.pass.Pass? ==> k !in s.pass.queue && s.pass.posting != Some(k);
    assert k != s.nextItem by { assert ItemOk(s.remote, k, s.items[k], s.nextItem); }
    if BridgeStep(step) { BridgeLeavesItem(s, step, k); } else { PublisherLeavesItem(s, step, k); }
  }

  lemma BridgeLeavesItem(s: State, step: Step, k: nat)
    requires BridgeStep(step) && k in s.items && k != s.nextItem
    ensures k in Apply(s, step).items && Apply(s, step).items[k] == s.items[k] && Apply(s, step).pass == s.pass
  {
  }

  lemma PublisherLeavesItem(s: State, step: Step, k: nat)
    requires !BridgeStep(step) && k in s.items && s.items[k].status != Waiting
    requires s.pass.Pass? ==> k !in s.pass.queue && s.pass.posting != Some(k)
    ensures k in Apply(s, step).items && Apply(s, step).items[k] == s.items[k]
    ensures var p := Apply(s, step).pass; p.Pass? ==> k !in p.queue && p.posting != Some(k)
  {
    match step
    case StartPass(listing, now) =>
    case BeginItem =>
      if s.pass.Pass? && s.pass.queue != [] { assert s.pass.queue[0] in s.pass.queue; }
    case Post(builds) =>
    case PostReturns(outcome) =>
    case EndPass =>
    case Restart =>
  }

  /** Whatever happens later: a published or failed item stays as it is, and one that an
      unreadable answer or a crash left as publishing is never posted again. */
  lemma {:induction false} SettledForever(s: State, steps: seq<Step>, k: nat)
    requires Inv(s) && Settled(s, k)
    ensures k in Run(s, steps).items && Run(s, steps).items[k] == s.items[k]
    decreases |steps|
  {
    if steps != [] {
      StepInv(s, steps[0]);
      SettledStep(s, steps[0], k);
      SettledForever(Apply(s, steps[0]), steps[1..], k);
    }
  }

  /** A deferral whose two writes are not torn apart: its row becomes scheduled and one
      item waits for the time chosen. */
  lemma DeferralIsScheduled(s: State, id: Id, at: int)
    requires id in s.progress && s.progress[id] == Finishing(Defer(at)) && id.run in s.local
    ensures var t := Apply(s, WriteLocal(id, false));
            && t.local == s.local[id.run := Scheduled] && t.pass == s.pass
            && t.items == s.items[s.nextItem := Item(id, at, Waiting, 0)]
  {
  }

  /** A crash between the mark and the post: the item says publishing, and no later run
      posts it. */
  lemma MarkedIsLost(s: State, k: nat, steps: seq<Step>)
    requires Inv(s) && s.pass.Pass? && s.pass.posting.None? && s.pass.queue != [] && s.pass.queue[0] == k
    ensures var t := Run(Apply(Apply(s, BeginItem), Restart), steps);
            k in t.items && t.items[k] == s.items[k].(status := Publishing) && t.items[k].posts == 0
  {
    assert ItemOk(s.remote, k, s.items[k], s.nextItem);
    StepInv(s, BeginItem);
    StepInv(Apply(s, BeginItem), Restart);
    assert Stuck(Apply(Apply(s, BeginItem), Restart), k);
    SettledForever(Apply(Apply(s, BeginItem), Restart), steps, k);
  }

  /** A due item that a pass lists is posted once and published when the answer says so. */
  lemma DueItemIsPublished(s: State, k: nat, now: int)
    requires Inv(s) && s.pass.Idle? && k in s.items && s.items[k].status == Waiting && s.items[k].at <= now
    ensures var b := Apply(Apply(s, StartPass([k], now)), BeginItem);
            var t := Apply(Apply(b, Post(true)), PostReturns(PostPublished));
            t.items == s.items[k := s.items[k].(status := Published, posts := 1)]
  {
    assert ItemOk(s.remote, k, s.items[k], s.nextItem);
    var a := Apply(s, StartPass([k], now));
    assert a == s.(pass := Pass([k], None));
    InHandIsPublished(Apply(a, BeginItem), k);
  }

  lemma InHandIsPublished(s: State, k: nat)
    requires InHand(s, k, 0)
    ensures Apply(Apply(s, Post(true)), PostReturns(PostPublished)).items ==
            s.items[k := s.items[k].(status := Published, posts := 1)]
  {
    assert Apply(s, Post(true)).items == SetStatus(s.items, k, Publishing, 1);
  }
}
